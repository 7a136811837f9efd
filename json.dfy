/**
  Request bodies as `request.get_json()` hands them to the route: JSON values
  as Python objects (None, bool, int/float, str, list, dict), with Python's
  truth test and hashability.
*/
module JsonValue {

  datatype Json =
    | Null
    | Bool(b: bool)
    | Number(n: real)
    | Str(s: string)
    | Array(items: seq<Json>)
    | Object(fields: map<string, Json>)

  /** Python's `bool(v)`: false for None, False, zero, and empty strings, lists and dicts. */
  predicate Truthy(v: Json) {
    match v
    case Null => false
    case Bool(b) => b
    case Number(n) => n != 0.0
    case Str(s) => |s| > 0
    case Array(items) => |items| > 0
    case Object(fields) => |fields| > 0
  }

  /** Lists and dicts cannot be hashed; the other JSON values can. */
  predicate Hashable(v: Json) {
    !v.Array? && !v.Object?
  }

  /** `dict.get(key)`: the value under key, or None when the key is absent. */
  function Get(fields: map<string, Json>, key: string): (v: Json)
    ensures key in fields ==> v == fields[key]
    ensures key !in fields ==> v == Null
  {
    if key in fields then fields[key] else Null
  }

  /** Exactly six JSON values are falsy: one empty value of each kind, and False. */
  lemma FalsyValues(v: Json)
    ensures !Truthy(v) <==>
      v == Null || v == Bool(false) || v == Number(0.0) || v == Str("")
      || v == Array([]) || v == Object(map[])
  {
    match v
    case Object(fields) =>
      if |fields| == 0 {
        assert fields == map[];
      }
    case _ =>
  }
}
