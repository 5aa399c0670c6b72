/** Payload aggregation: the `(name, value)` entries of the form folded into one
    object, a name seen once holding its string and a name seen again holding the
    list of its values. */
module Payload {
  import opened Wrappers

  /** A payload field: one string, or the strings given under one name, in order. */
  datatype FieldValue = Single(s: string) | Multi(vs: seq<string>)

  type Payload = map<string, FieldValue>

  /** JavaScript truthiness of a stored field: an array always, a string unless empty. */
  predicate Truthy(v: FieldValue)
  {
    v.Multi? || v.s != ""
  }

  /** The field after one more value arrives under its name: a truthy list grows, a
      truthy string becomes the list of it and the new value, anything else (absent,
      or the empty string) is overwritten. */
  function Push(stored: Option<FieldValue>, value: string): (r: FieldValue)
    ensures stored.Some? && stored.value.Multi? ==> r == Multi(stored.value.vs + [value])
    ensures stored.Some? && stored.value.Single? && stored.value.s != "" ==> r == Multi([stored.value.s, value])
    ensures stored.None? || stored.value == Single("") ==> r == Single(value)
  {
    if stored.Some? && Truthy(stored.value) then
      match stored.value
      case Multi(vs) => Multi(vs + [value])
      case Single(s) => Multi([s, value])
    else Single(value)
  }

  function Lookup(p: Payload, key: string): Option<FieldValue>
  {
    if key in p then Some(p[key]) else None
  }

  /** One iteration of the aggregation loop. */
  function Add(p: Payload, key: string, value: string): (r: Payload)
    ensures r.Keys == p.Keys + {key}
  {
    p[key := Push(Lookup(p, key), value)]
  }

  /** The payload the loop has built after the given entries. */
  function Aggregate(entries: seq<(string, string)>): Payload
  {
    if entries == [] then map[]
    else
      var last := entries[|entries| - 1];
      Add(Aggregate(entries[..|entries| - 1]), last.0, last.1)
  }

  /** Builds the payload from the entries, one entry at a time. */
  method BuildPayload(entries: seq<(string, string)>) returns (payload: Payload)
    ensures payload == Aggregate(entries)
  {
    payload := map[];
    for i := 0 to |entries|
      invariant payload == Aggregate(entries[..i])
    {
      var (key, value) := entries[i];
      assert entries[..i + 1][..i] == entries[..i];
      payload := Add(payload, key, value);
    }
    assert entries[..|entries|] == entries;
  }

  // An independent description of the result, field by field.

  /** The values given under `key`, in entry order. */
  function ValuesOf(entries: seq<(string, string)>, key: string): (vs: seq<string>)
    ensures |vs| <= |entries|
  {
    if entries == [] then []
    else
      var last := entries[|entries| - 1];
      ValuesOf(entries[..|entries| - 1], key) + (if last.0 == key then [last.1] else [])
  }

  /** The values after their leading empty strings. */
  function DropLeadingEmpty(vs: seq<string>): (d: seq<string>)
    ensures |d| <= |vs|
    ensures d != [] ==> d[0] != ""
  {
    if vs == [] then [] else if vs[0] == "" then DropLeadingEmpty(vs[1..]) else vs
  }

  /** The field a key with values `vs` ends up with: leading empty values are
      overwritten by the ones after them, so what counts is the values from the first
      non-empty one on; one of them (or none: all were empty) gives a string, more
      give the list of them. */
  function Collapse(vs: seq<string>): FieldValue
    requires vs != []
  {
    var d := DropLeadingEmpty(vs);
    if d == [] then Single("")
    else if |d| == 1 then Single(d[0])
    else Multi(d)
  }

  lemma {:induction false} DropLeadingEmptySnoc(vs: seq<string>, v: string)
    ensures DropLeadingEmpty(vs + [v]) ==
            if DropLeadingEmpty(vs) == [] then DropLeadingEmpty([v]) else DropLeadingEmpty(vs) + [v]
  {
    if vs != [] {
      assert (vs + [v])[1..] == vs[1..] + [v];
      if vs[0] == "" {
        DropLeadingEmptySnoc(vs[1..], v);
      }
    }
  }

  /** Collapsing one more value is one more Push. */
  lemma CollapseSnoc(vs: seq<string>, v: string)
    ensures Collapse(vs + [v]) == Push(if vs == [] then None else Some(Collapse(vs)), v)
  {
    DropLeadingEmptySnoc(vs, v);
  }

  /** The payload holds exactly the names that occur in the entries, each with the
      collapse of its values. */
  lemma {:induction false} AggregateIsCollapse(entries: seq<(string, string)>, key: string)
    ensures key in Aggregate(entries) <==> ValuesOf(entries, key) != []
    ensures key in Aggregate(entries) ==> Aggregate(entries)[key] == Collapse(ValuesOf(entries, key))
  {
    if entries != [] {
      var init := entries[..|entries| - 1];
      var last := entries[|entries| - 1];
      AggregateIsCollapse(init, key);
      if last.0 == key {
        var vs := ValuesOf(init, key);
        assert ValuesOf(entries, key) == vs + [last.1];
        assert Lookup(Aggregate(init), key) == if vs == [] then None else Some(Collapse(vs));
        CollapseSnoc(vs, last.1);
        assert Aggregate(entries) == Add(Aggregate(init), key, last.1);
        assert Aggregate(entries)[key] == Push(Lookup(Aggregate(init), key), last.1);
      } else {
        assert ValuesOf(entries, key) == ValuesOf(init, key);
        assert Aggregate(entries) == Add(Aggregate(init), last.0, last.1);
      }
    }
  }

  /** Without empty values: a name given once holds that string, a name given more
      often holds all its values in order. */
  lemma CollapseWithoutEmpty(vs: seq<string>)
    requires vs != []
    requires forall k :: 0 <= k < |vs| ==> vs[k] != ""
    ensures |vs| == 1 ==> Collapse(vs) == Single(vs[0])
    ensures |vs| > 1 ==> Collapse(vs) == Multi(vs)
  {
  }

  /** Fields given once or repeatedly, none of them empty. */
  lemma AggregateWithoutEmpty(entries: seq<(string, string)>, key: string)
    requires forall k :: 0 <= k < |entries| ==> entries[k].1 != ""
    ensures |ValuesOf(entries, key)| == 1 ==> key in Aggregate(entries) && Aggregate(entries)[key] == Single(ValuesOf(entries, key)[0])
    ensures |ValuesOf(entries, key)| > 1 ==> key in Aggregate(entries) && Aggregate(entries)[key] == Multi(ValuesOf(entries, key))
  {
    AggregateIsCollapse(entries, key);
    var vs := ValuesOf(entries, key);
    if vs != [] {
      ValuesOfNoEmpty(entries, key);
      CollapseWithoutEmpty(vs);
    }
  }

  lemma {:induction false} ValuesOfNoEmpty(entries: seq<(string, string)>, key: string)
    requires forall k :: 0 <= k < |entries| ==> entries[k].1 != ""
    ensures forall k :: 0 <= k < |ValuesOf(entries, key)| ==> ValuesOf(entries, key)[k] != ""
  {
    if entries != [] {
      ValuesOfNoEmpty(entries[..|entries| - 1], key);
    }
  }

  /** A single field: `color=red` gives the string "red". */
  lemma SingleFieldExample()
    ensures Aggregate([("color", "red")]) == map["color" := Single("red")]
  {
  }

  /** A repeated field: `topic=a`, `topic=b` give the list ["a", "b"]. */
  lemma RepeatedFieldExample()
    ensures Aggregate([("topic", "a"), ("topic", "b")]) == map["topic" := Multi(["a", "b"])]
  {
  }

  /** The empty-string quirk: a stored "" is overwritten rather than extended. */
  lemma EmptyValueOverwrittenExample()
    ensures Aggregate([("notes", ""), ("notes", "x")]) == map["notes" := Single("x")]
    ensures Aggregate([("notes", "x"), ("notes", "")]) == map["notes" := Multi(["x", ""])]
  {
  }
}
