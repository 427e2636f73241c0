/**
  The base form type's field configuration: a label, an `attr` array holding a
  placeholder, and caller options merged over them with `array_merge`.
*/
module ApplicationType {
  import opened Results
  import opened PhpArray

  /** The configuration before the options are merged in. */
  function BaseConfiguration(fieldLabel: Value, placeholder: Value): (base: Entries)
  {
    [("label", fieldLabel), ("attr", Arr([("placeholder", placeholder)]))]
  }

  lemma BaseConfigurationShape(fieldLabel: Value, placeholder: Value)
    ensures Keyed(BaseConfiguration(fieldLabel, placeholder))
    ensures Keys(BaseConfiguration(fieldLabel, placeholder)) == {"label", "attr"}
    ensures Lookup(BaseConfiguration(fieldLabel, placeholder), "label") == Some(fieldLabel)
    ensures Lookup(BaseConfiguration(fieldLabel, placeholder), "attr")
         == Some(Arr([("placeholder", placeholder)]))
    ensures ToMap(BaseConfiguration(fieldLabel, placeholder))
         == map["label" := fieldLabel, "attr" := Arr([("placeholder", placeholder)])]
  {
    var b := BaseConfiguration(fieldLabel, placeholder);
    assert b[1..][1..] == [];
    assert Keys(b[1..]) == {"attr"};
    assert ToMap(b[1..]) == map["attr" := Arr([("placeholder", placeholder)])];
    assert ToMap(b) == ToMap(b[1..])["label" := fieldLabel];
  }

  /** `getConfiguration($label, $placeholder, $options)`. */
  function GetConfiguration(fieldLabel: Value, placeholder: Value, options: Entries): (r: Entries)
    requires Keyed(options)
    ensures Keyed(r)
    ensures Keys(r) == {"label", "attr"} + Keys(options)
    ensures |r| >= 2 && r[0].0 == "label" && r[1].0 == "attr"
    ensures forall k :: k in Keys(options) ==> Lookup(r, k) == Lookup(options, k)
    ensures "label" !in Keys(options) ==> Lookup(r, "label") == Some(fieldLabel)
    ensures "attr" !in Keys(options) ==> Lookup(r, "attr") == Some(Arr([("placeholder", placeholder)]))
  {
    BaseConfigurationShape(fieldLabel, placeholder);
    ArrayMerge(BaseConfiguration(fieldLabel, placeholder), options)
  }

  /** With the default `$options = []` the result is the base configuration itself. */
  lemma DefaultOptions(fieldLabel: Value, placeholder: Value)
    ensures GetConfiguration(fieldLabel, placeholder, [])
         == [("label", fieldLabel), ("attr", Arr([("placeholder", placeholder)]))]
  {
  }

  /**
    An `attr` option replaces the base `attr` array wholesale: the placeholder
    survives only if the option supplies one itself.
  */
  lemma AttrOptionReplacesPlaceholder(fieldLabel: Value, placeholder: Value, options: Entries, attr: Entries)
    requires Keyed(options)
    requires Lookup(options, "attr") == Some(Arr(attr))
    ensures Lookup(GetConfiguration(fieldLabel, placeholder, options), "attr") == Some(Arr(attr))
    ensures Lookup(Lookup(GetConfiguration(fieldLabel, placeholder, options), "attr").value.entries, "placeholder")
         == Lookup(attr, "placeholder")
  {
  }

  /** Seen as a map, the configuration is the base map overridden by the options. */
  lemma ConfigurationAsMap(fieldLabel: Value, placeholder: Value, options: Entries)
    requires Keyed(options)
    ensures ToMap(GetConfiguration(fieldLabel, placeholder, options))
         == map["label" := fieldLabel, "attr" := Arr([("placeholder", placeholder)])] + ToMap(options)
  {
    BaseConfigurationShape(fieldLabel, placeholder);
    MergeIsRightBiasedUnion(BaseConfiguration(fieldLabel, placeholder), options);
  }
}
