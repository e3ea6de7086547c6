/**
 * JSON values as Python's `json.loads` returns them. Objects keep their fields in insertion
 * order, as Python dictionaries do; numbers are integers (floats are not modelled).
 */
module JsonValues {
  import opened Wrappers

  datatype Json =
    | JNull
    | JBool(b: bool)
    | JNum(n: int)
    | JStr(s: string)
    | JArr(items: seq<Json>)
    | JObj(fields: seq<(string, Json)>)

  /** The value stored under `key`: the first field with that name. Python's json.loads keeps
    the last one; the two agree when the keys of an object are distinct. */
  function Lookup(fields: seq<(string, Json)>, key: string): (r: Option<Json>)
  {
    if fields == [] then None
    else if fields[0].0 == key then Some(fields[0].1)
    else Lookup(fields[1..], key)
  }

  /** A key is found exactly when some field has that name, and the value found is that field's. */
  lemma {:induction false} LookupFound(fields: seq<(string, Json)>, key: string)
    ensures Lookup(fields, key).Some? <==> exists i :: 0 <= i < |fields| && fields[i].0 == key
    ensures Lookup(fields, key).Some? ==> (key, Lookup(fields, key).value) in fields
  {
    if fields != [] && fields[0].0 != key {
      LookupFound(fields[1..], key);
      if Lookup(fields, key).Some? {
        assert (key, Lookup(fields, key).value) in fields[1..];
      }
      assert forall i :: 1 <= i < |fields| ==> fields[i] == fields[1..][i - 1];
    }
  }

  /** Python's `key in d` for a dictionary `d`. */
  predicate HasKey(j: Json, key: string) {
    j.JObj? && Lookup(j.fields, key).Some?
  }

  /** Python's `bool(v)`. */
  predicate Truthy(j: Json) {
    match j
    case JNull => false
    case JBool(b) => b
    case JNum(n) => n != 0
    case JStr(s) => s != ""
    case JArr(items) => items != []
    case JObj(fields) => fields != []
  }

  /**
   * What `for x in v` visits: the items of a list, the keys of a dictionary, the
   * one-character strings of a string; None where Python raises TypeError.
   */
  function Elements(j: Json): (r: Option<seq<Json>>)
    ensures j.JArr? ==> r == Some(j.items)
    ensures r.Some? <==> j.JArr? || j.JObj? || j.JStr?
  {
    match j
    case JArr(items) => Some(items)
    case JObj(fields) => Some(Keys(fields))
    case JStr(s) => Some(Characters(s))
    case _ => None
  }

  /** The keys of a dictionary, as strings, in order. */
  function Keys(fields: seq<(string, Json)>): (r: seq<Json>)
    ensures |r| == |fields|
  {
    seq(|fields|, i requires 0 <= i < |fields| => JStr(fields[i].0))
  }

  /** The one-character strings of a string, in order. */
  function Characters(s: string): (r: seq<Json>)
    ensures |r| == |s|
  {
    seq(|s|, i requires 0 <= i < |s| => JStr([s[i]]))
  }
}
