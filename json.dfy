/** JSON-like values as Python's `json` module produces them, with Python's truth test.
    Objects are maps: the lookups the normaliser does never depend on key order. */
module Json {

  datatype Json =
    | JNull
    | JBool(b: bool)
    | JInt(i: int)
    | JFloat(r: real)
    | JString(s: string)
    | JArray(items: seq<Json>)
    | JObject(members: map<string, Json>)

  /** Python's `bool(v)`: None, False, zero, and empty strings, lists and dicts are falsy. */
  predicate Truthy(v: Json) {
    match v
    case JNull => false
    case JBool(b) => b
    case JInt(i) => i != 0
    case JFloat(r) => r != 0.0
    case JString(s) => s != ""
    case JArray(items) => items != []
    case JObject(members) => members != map[]
  }

  /** Python's `a or b`: the first operand when it is truthy, otherwise the second. */
  function Or(a: Json, b: Json): (r: Json)
    ensures Truthy(a) ==> r == a
    ensures !Truthy(a) ==> r == b
  {
    if Truthy(a) then a else b
  }

  /** `d.get(k)`: the value under `k`, or None when the key is absent. */
  function Get(d: map<string, Json>, k: string): (r: Json)
    ensures k in d ==> r == d[k]
    ensures k !in d ==> r == JNull
  {
    if k in d then d[k] else JNull
  }

  /** Values Python accepts as dict keys; lists and dicts are unhashable. */
  predicate Hashable(v: Json) {
    !v.JArray? && !v.JObject?
  }
}
