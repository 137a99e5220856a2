/** The parsed `meta.yml` descriptor of a subworkflow, and the values the
    command's `meta` attribute can hold. */
module Meta {
  import opened Wrappers

  /** The mapping under one tool name: only `homepage` is consulted. */
  datatype ToolMeta = ToolMeta(homepage: Option<string>)

  /** One input or output field: its `type`, its `description` (possibly
      null) and an optional `pattern`. */
  datatype FieldInfo = FieldInfo(kind: string, description: Option<string>, pattern: Option<string>)

  /** One list item of `tools`, `input` or `output`: a YAML mapping whose
      items are visited in insertion order. */
  type Entry<V> = seq<(string, V)>

  /** A loaded descriptor. `None` stands for a top-level key that is absent;
      `otherKeys` names any further top-level keys (`name`, `keywords`, ...),
      which matter only for the truthiness of the whole mapping. */
  datatype Descriptor = Descriptor(
    description: Option<string>,
    tools: Option<seq<Entry<ToolMeta>>>,
    input: Option<seq<Entry<FieldInfo>>>,
    output: Option<seq<Entry<FieldInfo>>>,
    otherKeys: set<string>)

  /** What `yaml.safe_load` yields: an empty document loads as null. */
  datatype Yaml = Null | Doc(doc: Descriptor)

  /** The value held by the `meta` attribute: Python `None`, Python `False`
      (the remote loader's failure sentinel) or a loaded mapping. */
  datatype MetaValue = NoneValue | FalseValue | Loaded(doc: Descriptor)

  function FromYaml(y: Yaml): MetaValue {
    match y
    case Null => NoneValue
    case Doc(d) => Loaded(d)
  }

  /** Python truthiness of an optional string. */
  predicate StringTruthy(s: Option<string>) {
    s.Some? && s.value != ""
  }

  /** Python truthiness of an optional list. */
  predicate ListTruthy<T>(s: Option<seq<T>>) {
    s.Some? && |s.value| > 0
  }

  /** A mapping is truthy when it has at least one key. */
  predicate DocTruthy(d: Descriptor) {
    d.description.Some? || d.tools.Some? || d.input.Some? || d.output.Some? || d.otherKeys != {}
  }

  predicate Truthy(m: MetaValue) {
    m.Loaded? && DocTruthy(m.doc)
  }

  /** All items of all entries, in order: the reference reading of a list of
      single-key mappings. */
  function Flatten<V>(entries: seq<Entry<V>>): seq<(string, V)>
    decreases |entries|
  {
    if |entries| == 0 then [] else entries[0] + Flatten(entries[1..])
  }

  /** The items of one mapping, each transformed: the inner `for key, info in
      entry.items()` loop. */
  function CollectEntry<V, R>(entry: Entry<V>, f: (string, V) -> R): seq<R>
    decreases |entry|
  {
    if |entry| == 0 then [] else [f(entry[0].0, entry[0].1)] + CollectEntry(entry[1..], f)
  }

  /** The nested loop over a list of mappings and their items. */
  function Collect<V, R>(entries: seq<Entry<V>>, f: (string, V) -> R): seq<R>
    decreases |entries|
  {
    if |entries| == 0 then [] else CollectEntry(entries[0], f) + Collect(entries[1..], f)
  }

  lemma {:induction false} CollectEntryPointwise<V, R>(entry: Entry<V>, f: (string, V) -> R)
    ensures |CollectEntry(entry, f)| == |entry|
    ensures forall i :: 0 <= i < |entry| ==> CollectEntry(entry, f)[i] == f(entry[i].0, entry[i].1)
    decreases |entry|
  {
    if |entry| > 0 {
      CollectEntryPointwise(entry[1..], f);
    }
  }

  /** The nested loop produces exactly one result per item across all
      entries, in the order of `Flatten`. */
  lemma {:induction false} CollectPointwise<V, R>(entries: seq<Entry<V>>, f: (string, V) -> R)
    ensures |Collect(entries, f)| == |Flatten(entries)|
    ensures forall i :: 0 <= i < |Flatten(entries)| ==>
              Collect(entries, f)[i] == f(Flatten(entries)[i].0, Flatten(entries)[i].1)
    decreases |entries|
  {
    if |entries| > 0 {
      CollectEntryPointwise(entries[0], f);
      CollectPointwise(entries[1..], f);
      var head := CollectEntry(entries[0], f);
      var tail := Collect(entries[1..], f);
      assert Collect(entries, f) == head + tail;
      assert Flatten(entries) == entries[0] + Flatten(entries[1..]);
      forall i | 0 <= i < |Flatten(entries)|
        ensures Collect(entries, f)[i] == f(Flatten(entries)[i].0, Flatten(entries)[i].1)
      {
        if i >= |entries[0]| {
          assert Collect(entries, f)[i] == tail[i - |head|];
          assert Flatten(entries)[i] == Flatten(entries[1..])[i - |entries[0]|];
        }
      }
    }
  }
}
