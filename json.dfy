/**
 * JSON values as Python holds them after `json.loads`: None, bool, number,
 * str, list and dict, with the Python behaviours the core depends on
 * (truthiness, `dict.get`, `str()`, iteration in a `for` loop).
 */
module JsonValues {
  import opened Wrappers

  /**
   * Python `int` and `float` are both numbers here, and a number and a
   * bool are never equal, although Python's `1 == True`; NaN and the
   * infinities are not values.
   */
  datatype Json =
    | JNull
    | JBool(b: bool)
    | JNum(n: real)
    | JStr(s: string)
    | JArr(items: seq<Json>)
    | JObj(fields: map<string, Json>)

  /** Python truthiness: `if v:`. */
  predicate Truthy(v: Json) {
    match v
    case JNull => false
    case JBool(b) => b
    case JNum(n) => n != 0.0
    case JStr(s) => s != []
    case JArr(items) => items != []
    case JObj(fields) => fields != map[]
  }

  /** `d.get(key, default)`: the default only when the key is absent; a present null passes through. */
  function Get(d: map<string, Json>, key: string, default: Json): (r: Json)
    ensures key in d ==> r == d[key]
    ensures key !in d ==> r == default
  {
    if key in d then d[key] else default
  }

  /** Values a Python `set` accepts; lists and dicts raise `TypeError: unhashable type`. */
  predicate Hashable(v: Json) {
    !v.JArr? && !v.JObj?
  }

  /**
   * `str(v)`: the string itself for a string; for any other value the Python
   * rendering, which is the caller-supplied `render`.
   */
  function Str(v: Json, render: Json -> string): (r: string)
    ensures v.JStr? ==> r == v.s
  {
    if v.JStr? then v.s else render(v)
  }

  /**
   * The items a `for item in v:` loop visits. A list gives its elements and a
   * string its characters; a dict gives its keys, which are strings and which
   * every loop of the core drops, so they are left out here. Any other value
   * raises `TypeError`.
   */
  function ForItems(v: Json): (r: Result<seq<Json>>)
    ensures v.JArr? ==> r == Ok(v.items)
    ensures r.Ok? ==> forall i :: 0 <= i < |r.value| ==> r.value[i].JObj? ==> v.JArr?
    ensures r.Err? <==> (v.JNull? || v.JBool? || v.JNum?)
  {
    match v
    case JArr(items) => Ok(items)
    case JStr(s) => Ok(seq(|s|, i requires 0 <= i < |s| => JStr([s[i]])))
    case JObj(_) => Ok([])
    case _ => Err("TypeError: object is not iterable")
  }
}
