/** The untyped resource document handed back by the dynamic client: a tree
    of string-keyed objects, arrays and scalars, as JSON decoding produces it
    in Go (`map[string]interface{}`, `[]interface{}`, `string`, `int64`,
    `float64`, `bool`, `nil`). */
module Unstructured {
  import opened Wrappers

  newtype int64 = x: int | -0x8000_0000_0000_0000 <= x < 0x8000_0000_0000_0000

  /** An object keeps its entries in the order the Go runtime enumerates
      them. A decoded document never holds the same key twice
      (`DistinctKeys`); lookups take the first entry with a key, so every
      property below also holds for entry lists outside that domain. */
  datatype Value =
    | Object(entries: seq<(string, Value)>)
    | Array(items: seq<Value>)
    | Str(s: string)
    | Int(i: int64)
    | Float(f: real)
    | Bool(b: bool)
    | Null

  type Entries = seq<(string, Value)>

  /** The dynamic Go type behind an `interface{}`; `NilKind` is both an
      absent key and a JSON null. */
  datatype Kind = MapKind | SliceKind | StringKind | Int64Kind | Float64Kind | BoolKind | NilKind

  function KindOf(v: Value): Kind {
    match v
    case Object(_) => MapKind
    case Array(_) => SliceKind
    case Str(_) => StringKind
    case Int(_) => Int64Kind
    case Float(_) => Float64Kind
    case Bool(_) => BoolKind
    case Null => NilKind
  }

  /** Go's `m[key]`: the value stored under `key`, or nil when there is none. */
  function Field(m: Entries, key: string): Value {
    if |m| == 0 then Null
    else if m[0].0 == key then m[0].1
    else Field(m[1..], key)
  }

  /** A present key yields its first entry's value; an absent one yields nil. */
  lemma {:induction false} FieldSpec(m: Entries, key: string)
    ensures Field(m, key) != Null ==> exists i :: 0 <= i < |m| && m[i] == (key, Field(m, key))
    ensures (forall i :: 0 <= i < |m| ==> m[i].0 != key) ==> Field(m, key) == Null
    ensures forall i :: 0 <= i < |m| && m[i].0 == key && (forall j :: 0 <= j < i ==> m[j].0 != key) ==>
      Field(m, key) == m[i].1
    decreases |m|
  {
    if |m| > 0 && m[0].0 != key {
      FieldSpec(m[1..], key);
      assert forall i :: 0 <= i < |m| - 1 ==> m[1..][i] == m[i + 1];
      forall i | 0 <= i < |m| && m[i].0 == key && (forall j :: 0 <= j < i ==> m[j].0 != key)
        ensures Field(m, key) == m[i].1
      {
        assert i > 0;
        assert m[1..][i - 1] == m[i];
        assert forall j :: 0 <= j < i - 1 ==> m[1..][j].0 != key by {
          forall j | 0 <= j < i - 1 ensures m[1..][j].0 != key {
            assert m[1..][j] == m[j + 1];
          }
        }
      }
    }
  }

  /** A decoded JSON object never holds the same key twice. */
  predicate DistinctKeys(m: Entries) {
    forall i, j :: 0 <= i < j < |m| ==> m[i].0 != m[j].0
  }

  /** In a decoded object, indexing by an entry's key yields that entry's value. */
  lemma FieldOfDistinctKeys(m: Entries, i: nat)
    requires DistinctKeys(m) && i < |m|
    ensures Field(m, m[i].0) == m[i].1
  {
    FieldSpec(m, m[i].0);
  }

  /** The value reached by following `path` through nested objects; nil as
      soon as a step is missing or lands on something that is not an object. */
  function At(v: Value, path: seq<string>): Value
    decreases |path|
  {
    if |path| == 0 then v
    else if v.Object? then At(Field(v.entries, path[0]), path[1..])
    else Null
  }

  /** A failed Go type assertion `x.(T)`: the run-time panic names the
      document path, the type asserted and the type found. */
  datatype Panic = TypeAssertion(path: seq<string>, want: Kind, got: Kind)

  /** `v.(map[string]interface{})` on the value found at `path`. */
  function AsMap(v: Value, path: seq<string>): (r: Result<Entries, Panic>)
    ensures r.Success? <==> KindOf(v) == MapKind
    ensures r.Success? ==> v == Object(r.value)
    ensures r.Failure? ==> r.error == TypeAssertion(path, MapKind, KindOf(v))
  {
    if v.Object? then Success(v.entries) else Failure(TypeAssertion(path, MapKind, KindOf(v)))
  }

  /** `v.(string)` on the value found at `path`. */
  function AsString(v: Value, path: seq<string>): (r: Result<string, Panic>)
    ensures r.Success? <==> KindOf(v) == StringKind
    ensures r.Success? ==> v == Str(r.value)
    ensures r.Failure? ==> r.error == TypeAssertion(path, StringKind, KindOf(v))
  {
    if v.Str? then Success(v.s) else Failure(TypeAssertion(path, StringKind, KindOf(v)))
  }

  /** `v.(int64)` on the value found at `path`; a JSON number with a
      fraction decodes to float64 and does not pass. */
  function AsInt64(v: Value, path: seq<string>): (r: Result<int64, Panic>)
    ensures r.Success? <==> KindOf(v) == Int64Kind
    ensures r.Success? ==> v == Int(r.value)
    ensures r.Failure? ==> r.error == TypeAssertion(path, Int64Kind, KindOf(v))
  {
    if v.Int? then Success(v.i) else Failure(TypeAssertion(path, Int64Kind, KindOf(v)))
  }

  predicate AllStrings(m: Entries) {
    forall i :: 0 <= i < |m| ==> m[i].1.Str?
  }

  function StringPairs(m: Entries): (ps: seq<(string, string)>)
    requires AllStrings(m)
    ensures |ps| == |m|
    ensures forall i :: 0 <= i < |m| ==> m[i] == (ps[i].0, Str(ps[i].1))
  {
    seq(|m|, i requires 0 <= i < |m| => (m[i].0, m[i].1.s))
  }

  /** `GetLabels()` of an unstructured object: `metadata.labels` as
      key/value pairs when it is an object whose values are all strings;
      in every other case the accessor swallows its error and yields no
      labels at all. */
  function LabelsOf(obj: Entries): (ps: seq<(string, string)>)
    ensures var ls := At(Object(obj), ["metadata", "labels"]);
      ls.Object? && AllStrings(ls.entries) ==>
        |ps| == |ls.entries| && forall i :: 0 <= i < |ps| ==> ls.entries[i] == (ps[i].0, Str(ps[i].1))
    ensures var ls := At(Object(obj), ["metadata", "labels"]);
      !(ls.Object? && AllStrings(ls.entries)) ==> ps == []
  {
    assert ["metadata", "labels"][1..] == ["labels"];
    assert ["labels"][1..] == [];
    match Field(obj, "metadata")
    case Object(meta) =>
      (match Field(meta, "labels")
       case Object(ls) => if AllStrings(ls) then StringPairs(ls) else []
       case _ => [])
    case _ => []
  }
}
