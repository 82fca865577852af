/** Decoded JSON values, as the HTTP library's decoder hands them to the adapters. */
module Json {

  /** Python's `Optional`: a value or `None`. */
  datatype Option<+T> = None | Some(value: T)

  /** A decoded JSON value. Numbers are integers. An object keeps its members in
      the order they appear in the document, as the Python dict the decoder
      builds does. */
  datatype Json =
    | JNull
    | JBool(b: bool)
    | JNum(n: int)
    | JStr(s: string)
    | JArr(items: seq<Json>)
    | JObj(fields: seq<(string, Json)>)

  /** True iff some member of the object is named `key` (`key in d`). */
  predicate HasKey(fields: seq<(string, Json)>, key: string) {
    exists i :: 0 <= i < |fields| && fields[i].0 == key
  }

  /** The value the decoded dict holds under `key`. When a document repeats a
      key, the decoder keeps the last value, so the last member wins. */
  function Lookup(fields: seq<(string, Json)>, key: string): (r: Option<Json>)
    ensures r.None? <==> !HasKey(fields, key)
    ensures r.Some? ==>
      exists i :: 0 <= i < |fields| && fields[i] == (key, r.value) &&
        forall k :: i < k < |fields| ==> fields[k].0 != key
    decreases |fields|
  {
    if |fields| == 0 then None
    else
      var last := fields[|fields| - 1];
      if last.0 == key then Some(last.1)
      else
        var r := Lookup(fields[..|fields| - 1], key);
        assert forall i :: 0 <= i < |fields| - 1 ==> fields[..|fields| - 1][i] == fields[i];
        r
  }

  /** A member appended under another key does not change what `key` finds. */
  lemma LookupPastOtherKey(fields: seq<(string, Json)>, other: string, v: Json, key: string)
    requires key != other
    ensures Lookup(fields + [(other, v)], key) == Lookup(fields, key)
    ensures HasKey(fields + [(other, v)], key) == HasKey(fields, key)
  {
    assert (fields + [(other, v)])[..|fields|] == fields;
  }

  /** The member `key` of `v`, when `v` is an object holding one. */
  function Field(v: Json, key: string): Option<Json> {
    if v.JObj? then Lookup(v.fields, key) else None
  }

  /** The member `key` of `v`, or `default` when there is none. */
  function FieldOr(v: Json, key: string, default: Json): Json {
    match Field(v, key)
    case Some(x) => x
    case None => default
  }

  /** The elements of the list stored under `key`; none when there is no such list. */
  function ListAt(v: Json, key: string): seq<Json> {
    match Field(v, key)
    case Some(JArr(items)) => items
    case _ => []
  }

  /** The member `key` is absent, or a list whose elements are all objects. */
  predicate ObjectListAt(v: Json, key: string) {
    match Field(v, key)
    case None => true
    case Some(x) => x.JArr? && forall k :: 0 <= k < |x.items| ==> x.items[k].JObj?
  }
}
