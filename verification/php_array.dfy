/**
  PHP arrays with string keys: ordered lists of key/value pairs in which no key
  occurs twice, and `array_merge` on them. For string keys a later array's value
  replaces the earlier one in place, and keys seen for the first time are appended
  in the order they occur.
*/
module PhpArray {
  import opened Results

  /**
    The PHP values a form option can hold. Floats and integer keys are left out;
    a key such as "5", which PHP would store as an integer, is kept as a string.
    A nested `Arr` is not required to have distinct keys; lookups in it read the
    first entry for a key.
  */
  datatype Value =
    | Null
    | Bool(b: bool)
    | Int(i: int)
    | Str(s: string)
    | Arr(entries: seq<(string, Value)>)

  type Entries = seq<(string, Value)>

  /** A PHP array never holds the same key twice. */
  predicate Keyed(a: Entries) {
    forall i, j :: 0 <= i < j < |a| ==> a[i].0 != a[j].0
  }

  function Keys(a: Entries): (ks: set<string>)
    ensures forall i :: 0 <= i < |a| ==> a[i].0 in ks
  {
    if a == [] then {} else {a[0].0} + Keys(a[1..])
  }

  lemma {:induction false} KeyHasIndex(a: Entries, k: string)
    requires k in Keys(a)
    ensures exists i :: 0 <= i < |a| && a[i].0 == k
  {
    if a[0].0 != k {
      KeyHasIndex(a[1..], k);
      var i :| 0 <= i < |a[1..]| && a[1..][i].0 == k;
      assert a[i + 1].0 == k;
    }
  }

  /** Removing the first entry of a PHP array leaves a PHP array without that key. */
  lemma KeyedTail(a: Entries)
    requires Keyed(a) && a != []
    ensures Keyed(a[1..])
    ensures a[0].0 !in Keys(a[1..])
  {
    assert forall i :: 0 <= i < |a[1..]| ==> a[1..][i] == a[i + 1];
    if a[0].0 in Keys(a[1..]) {
      KeyHasIndex(a[1..], a[0].0);
      assert false;
    }
  }

  lemma KeyedCons(x: (string, Value), a: Entries)
    requires Keyed(a) && x.0 !in Keys(a)
    ensures Keyed([x] + a)
  {
  }

  /** `$a[$k]`, or None when `$k` is not a key of `$a`. */
  function Lookup(a: Entries, k: string): (r: Option<Value>)
    ensures r.Some? <==> k in Keys(a)
  {
    if a == [] then None
    else if a[0].0 == k then Some(a[0].1)
    else Lookup(a[1..], k)
  }

  /** `$a[$k] = $v`: overwrite in place if the key exists, append otherwise. */
  function Put(a: Entries, k: string, v: Value): (r: Entries)
    ensures Keys(r) == Keys(a) + {k}
    ensures Lookup(r, k) == Some(v)
    ensures forall j :: j != k ==> Lookup(r, j) == Lookup(a, j)
    ensures |r| == if k in Keys(a) then |a| else |a| + 1
    ensures forall i :: 0 <= i < |a| ==> r[i].0 == a[i].0
    ensures Keyed(a) ==> Keyed(r)
  {
    if a == [] then [(k, v)]
    else if a[0].0 == k then [(k, v)] + a[1..]
    else
      var rest := Put(a[1..], k, v);
      // Both branches build the same array; the first only calls the lemmas
      // that keep the keys distinct when they were distinct before.
      if Keyed(a) then
        KeyedTail(a);
        KeyedCons(a[0], rest);
        [a[0]] + rest
      else
        [a[0]] + rest
  }

  /** `array_merge($a, $b)` for string-keyed arrays. */
  function ArrayMerge(a: Entries, b: Entries): (r: Entries)
    requires Keyed(a) && Keyed(b)
    ensures Keyed(r)
    ensures Keys(r) == Keys(a) + Keys(b)
    ensures forall k :: k in Keys(b) ==> Lookup(r, k) == Lookup(b, k)
    ensures forall k :: k !in Keys(b) ==> Lookup(r, k) == Lookup(a, k)
    ensures |r| >= |a| && forall i :: 0 <= i < |a| ==> r[i].0 == a[i].0
    decreases |b|
  {
    if b == [] then a
    else
      KeyedTail(b);
      ArrayMerge(Put(a, b[0].0, b[0].1), b[1..])
  }

  /** The array seen as a finite map from keys to values, ignoring key order. */
  function ToMap(a: Entries): (m: map<string, Value>)
  {
    if a == [] then map[] else ToMap(a[1..])[a[0].0 := a[0].1]
  }

  lemma {:induction false} ToMapAgreesWithLookup(a: Entries)
    ensures ToMap(a).Keys == Keys(a)
    ensures forall k :: k in Keys(a) ==> ToMap(a)[k] == Lookup(a, k).value
  {
    if a != [] {
      ToMapAgreesWithLookup(a[1..]);
    }
  }

  /** As finite maps, `array_merge` on string keys is the right-biased union. */
  lemma MergeIsRightBiasedUnion(a: Entries, b: Entries)
    requires Keyed(a) && Keyed(b)
    ensures ToMap(ArrayMerge(a, b)) == ToMap(a) + ToMap(b)
  {
    var r := ArrayMerge(a, b);
    ToMapAgreesWithLookup(a);
    ToMapAgreesWithLookup(b);
    ToMapAgreesWithLookup(r);
    forall k | k in ToMap(r)
      ensures ToMap(r)[k] == (ToMap(a) + ToMap(b))[k]
    {
      if k in Keys(b) {
        assert Lookup(r, k) == Lookup(b, k);
      } else {
        assert Lookup(r, k) == Lookup(a, k);
      }
    }
  }
}
