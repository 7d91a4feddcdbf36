/**
 * `ConfigLoader`: deep merge of JSON configuration values, and the loading of a
 * base configuration with an optional customization merged over it. Reading and
 * parsing the two files are not modelled: their outcomes are parameters.
 */
module Config {
  import opened Wrappers
  import opened Json
  import Sequences

  /**
   * `merge_configs`: objects merge key by key (a key missing from `base` merges
   * from `Null`), arrays concatenate, and every other pair yields `ext`.
   */
  function Merge(base: Value, ext: Value): (r: Value)
    decreases ext
    ensures base.Object? && ext.Object? ==>
      r.Object? && r.fields.Keys == base.fields.Keys + ext.fields.Keys &&
      (forall k | k in base.fields && k !in ext.fields :: r.fields[k] == base.fields[k]) &&
      (forall k | k in ext.fields :: r.fields[k] == Merge(Get(base, k), ext.fields[k]))
    ensures base.Array? && ext.Array? ==> r.Array? && |r.items| == |base.items| + |ext.items|
    ensures base.Array? && ext.Array? ==> r.items[..|base.items|] == base.items && r.items[|base.items|..] == ext.items
    ensures !(base.Object? && ext.Object?) && !(base.Array? && ext.Array?) ==> r == ext
  {
    match (base, ext)
    case (Object(bm), Object(em)) =>
      Object(map k | k in bm.Keys + em.Keys :: if k in em then Merge(Get(base, k), em[k]) else bm[k])
    case (Array(bl), Array(el)) =>
      Array(bl + el)
    case (_, _) =>
      ext
  }

  /** Merging into a missing entry gives the extension value itself. */
  lemma MergeIntoNull(ext: Value)
    ensures Merge(Null, ext) == ext
  {
  }

  /** A key only the extension has gets the extension's value unchanged. */
  lemma ExtensionOnlyKey(base: Value, ext: Value, k: string)
    requires base.Object? && ext.Object? && k in ext.fields && k !in base.fields
    ensures k in Merge(base, ext).fields && Merge(base, ext).fields[k] == ext.fields[k]
  {
    MergeIntoNull(ext.fields[k]);
  }

  /** Merging an empty object over an object leaves it unchanged. */
  lemma MergeEmptyObject(base: Value)
    requires base.Object?
    ensures Merge(base, Object(map[])) == base
  {
    assert Merge(base, Object(map[])).fields == base.fields;
  }

  /**
   * A key of `base` survives a merge of objects, and if its value is an object
   * that the extension also gives as an object, so do that object's keys.
   */
  lemma BaseKeysSurvive(base: Value, ext: Value, k: string, j: string)
    requires base.Object? && ext.Object? && k in base.fields
    ensures k in Merge(base, ext).fields
    ensures base.fields[k].Object? && j in base.fields[k].fields &&
            (k !in ext.fields || ext.fields[k].Object?) ==>
              Merge(base, ext).fields[k].Object? && j in Merge(base, ext).fields[k].fields
  {
    if k in ext.fields && base.fields[k].Object? && ext.fields[k].Object? && j in base.fields[k].fields {
      assert Get(base, k) == base.fields[k];
      ObjectKeySurvives(base.fields[k], ext.fields[k], j);
    }
  }

  lemma ObjectKeySurvives(b: Value, e: Value, j: string)
    requires b.Object? && e.Object? && j in b.fields
    ensures j in Merge(b, e).fields
  {
  }

  /** The deep-merge example: a nested override keeps its sibling, and arrays concatenate. */
  lemma DeepMergeExample(base: Value, ext: Value)
    requires base == Object(map["settings" := Object(map["timeout" := Number(30), "retry" := Bool(true)]),
                                "agents" := Array([Str("alpha")])])
    requires ext == Object(map["settings" := Object(map["timeout" := Number(60)]),
                               "agents" := Array([Str("beta")])])
    ensures var merged := Merge(base, ext);
            Get(Get(merged, "settings"), "timeout") == Number(60) &&
            Get(Get(merged, "settings"), "retry") == Bool(true) &&
            Get(merged, "agents") == Array([Str("alpha"), Str("beta")])
  {
    var settings := Object(map["timeout" := Number(30), "retry" := Bool(true)]);
    var override := Object(map["timeout" := Number(60)]);
    ExampleEntries(base, ext, settings, override);
    MergedEntry(base, ext, "settings");
    SettingsMerge(settings, override);
    MergedEntry(base, ext, "agents");
    MergeArrays([Str("alpha")], [Str("beta")]);
    Sequences.Pair(Str("alpha"), Str("beta"));
  }

  /** The entries of the example's two objects. */
  lemma ExampleEntries(base: Value, ext: Value, settings: Value, override: Value)
    requires settings == Object(map["timeout" := Number(30), "retry" := Bool(true)])
    requires override == Object(map["timeout" := Number(60)])
    requires base == Object(map["settings" := settings, "agents" := Array([Str("alpha")])])
    requires ext == Object(map["settings" := override, "agents" := Array([Str("beta")])])
    ensures ext.Object? && "settings" in ext.fields && "agents" in ext.fields
    ensures Get(base, "settings") == settings && ext.fields["settings"] == override
    ensures Get(base, "agents") == Array([Str("alpha")]) && ext.fields["agents"] == Array([Str("beta")])
  {
  }

  /** Two arrays merge into their concatenation. */
  lemma MergeArrays(b: seq<Value>, e: seq<Value>)
    ensures Merge(Array(b), Array(e)) == Array(b + e)
  {
  }

  /** A key the extension gives holds, in the merge of two objects, the merge of the two entries. */
  lemma MergedEntry(base: Value, ext: Value, k: string)
    requires base.Object? && ext.Object? && k in ext.fields
    ensures Get(Merge(base, ext), k) == Merge(Get(base, k), ext.fields[k])
  {
  }

  /** The inner merge of the example: the override replaces the timeout and the retry flag stays. */
  lemma SettingsMerge(settings: Value, override: Value)
    requires settings == Object(map["timeout" := Number(30), "retry" := Bool(true)])
    requires override == Object(map["timeout" := Number(60)])
    ensures Get(Merge(settings, override), "timeout") == Number(60)
    ensures Get(Merge(settings, override), "retry") == Bool(true)
  {
    assert Get(settings, "timeout") == Number(30);
  }

  /** Arrays are appended without removing duplicates: ["a"] merged with ["b", "a"] has three items. */
  lemma ArraysKeepDuplicates()
    ensures var merged := Merge(Object(map["tags" := Array([Str("a")])]),
                                Object(map["tags" := Array([Str("b"), Str("a")])]));
            |Get(merged, "tags").items| == 3
  {
    var base := Object(map["tags" := Array([Str("a")])]);
    assert Get(base, "tags") == Array([Str("a")]);
  }

  /**
   * `load_with_customization`: `base` is the outcome of reading and parsing the
   * base file, `custom` that of the customization file, or `None` when that
   * file does not exist. A base failure comes first; a customization failure
   * is returned only when the file exists.
   */
  function LoadWithCustomization(base: Result<Value, string>, custom: Option<Result<Value, string>>): (r: Result<Value, string>)
    ensures base.Err? ==> r == Err(base.error)
    ensures base.Ok? && custom.None? ==> r == Ok(base.value)
    ensures base.Ok? && custom.Some? && custom.value.Err? ==> r == Err(custom.value.error)
    ensures base.Ok? && custom.Some? && custom.value.Ok? ==> r == Ok(Merge(base.value, custom.value.value))
  {
    if base.Err? then Err(base.error)
    else if custom.None? then Ok(base.value)
    else if custom.value.Err? then Err(custom.value.error)
    else Ok(Merge(base.value, custom.value.value))
  }

  /** Without a customization file, `{"status": "ok"}` loads as it is. */
  lemma MissingCustomizationExample()
    ensures var loaded := LoadWithCustomization(Ok(Object(map["status" := Str("ok")])), None);
            loaded.Ok? && Get(loaded.value, "status") == Str("ok")
  {
  }
}
