/**
  How the pages of one collection fit together: reading pages 1, 2, …, n in
  order and concatenating them gives back a prefix of the collection, and reading
  pages 1 to `GetPages` gives back the whole collection, each record exactly once.
*/
module PageCover {
  import opened Results
  import opened Pagination

  /** The records of pages 1..count, concatenated in page order. */
  function ReadPages<R>(p: Paginator, store: Store<R>, count: nat): (r: Result<seq<R>, PaginationError>)
    ensures count > 0 && IsEmpty(p.entityClass) ==> r == Err(MissingEntityClass)
    ensures r.Ok? ==> |r.value| <= count * p.limit
  {
    if count == 0 then Ok([])
    else
      match ReadPages(p, store, count - 1)
      case Err(e) => Err(e)
      case Ok(before) =>
        match GetData(SetPage(p, count), store)
        case Err(e) => Err(e)
        case Ok(page) =>
          assert (count - 1) * p.limit + p.limit == count * p.limit;
          Ok(before + page)
  }

  /** Page `page` (1-based) starts where pages 1..page-1 end. */
  lemma PageWindow<R>(p: Paginator, store: Store<R>, page: nat)
    requires Configured(p, store) && p.limit > 0 && page >= 1
    ensures GetData(SetPage(p, page), store)
         == Ok(Records(p, store)[Min((page - 1) * p.limit, |Records(p, store)|)
                                 ..Min(page * p.limit, |Records(p, store)|)])
  {
  }

  /** Consecutive page windows: page `count` ends no earlier than page `count - 1`. */
  lemma WindowBoundsGrow(count: nat, limit: int, total: nat)
    requires count > 0 && limit > 0
    ensures Min((count - 1) * limit, total) <= Min(count * limit, total)
  {
    assert (count - 1) * limit + limit == count * limit;
  }

  lemma ReadPagesStep<R>(p: Paginator, store: Store<R>, count: nat, before: seq<R>, page: seq<R>)
    requires count > 0
    requires ReadPages(p, store, count - 1) == Ok(before)
    requires GetData(SetPage(p, count), store) == Ok(page)
    ensures ReadPages(p, store, count) == Ok(before + page)
  {
  }

  lemma ConcatSlices<R>(s: seq<R>, a: int, b: int)
    requires 0 <= a <= b <= |s|
    ensures s[..a] + s[a..b] == s[..b]
  {
  }

  lemma {:induction false} ReadPagesIsPrefix<R>(p: Paginator, store: Store<R>, count: nat)
    requires Configured(p, store) && p.limit > 0
    ensures ReadPages(p, store, count) == Ok(Records(p, store)[..Min(count * p.limit, |Records(p, store)|)])
  {
    if count > 0 {
      var s := Records(p, store);
      var a := Min((count - 1) * p.limit, |s|);
      var b := Min(count * p.limit, |s|);
      WindowBoundsGrow(count, p.limit, |s|);
      ReadPagesIsPrefix(p, store, count - 1);
      PageWindow(p, store, count);
      ReadPagesStep(p, store, count, s[..a], s[a..b]);
      ConcatSlices(s, a, b);
    }
  }

  /** Pages 1..GetPages reproduce the configured collection exactly. */
  lemma {:induction false} AllPagesReproduceCollection<R>(p: Paginator, store: Store<R>)
    requires p.limit > 0
    ensures GetPages(p, store).Ok? <==> Configured(p, store)
    ensures GetPages(p, store).Ok? ==>
      ReadPages(p, store, GetPages(p, store).value) == Ok(Records(p, store))
  {
    if Configured(p, store) {
      var n := GetPages(p, store).value;
      assert IsCeilQuotient(|Records(p, store)|, p.limit, n);
      assert n * p.limit >= |Records(p, store)|;
      ReadPagesIsPrefix(p, store, n);
      var all := Records(p, store);
      assert Min(n * p.limit, |all|) == |all|;
      assert all[..|all|] == all;
    }
  }

  /** Every page after the last one is empty; every page up to it is not. */
  lemma PagesBeyondTheLastAreEmpty<R>(p: Paginator, store: Store<R>, page: int)
    requires Configured(p, store) && p.limit > 0 && page >= 1
    ensures GetPages(p, store).Ok?
    ensures GetData(SetPage(p, page), store).Ok?
    ensures GetData(SetPage(p, page), store).value == [] <==> page > GetPages(p, store).value
  {
    var n := GetPages(p, store).value;
    assert Records(SetPage(p, page), store) == Records(p, store);
    if page > n {
      assert (page - 1) * p.limit >= n * p.limit;
    } else {
      assert (page - 1) * p.limit <= (n - 1) * p.limit;
    }
  }
}
