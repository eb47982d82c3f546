/**
 * JSON values as the Python code sees them after `json.loads`, and the few
 * Python operators the core applies to them: truthiness, the `in` operator
 * and `dict.get`.  Objects are modelled as maps, so key order is not kept.
 */
module Json {

  datatype Json =
    | JNull
    | JBool(b: bool)
    | JNum(n: int)
    | JStr(s: string)
    | JArr(items: seq<Json>)
    | JObj(fields: map<string, Json>)

  /** The result of evaluating a Python expression that may raise. */
  datatype Outcome<T> = Returned(value: T) | Raised

  /** Python truthiness of a decoded JSON value. */
  predicate Truthy(v: Json) {
    match v
    case JNull => false
    case JBool(b) => b
    case JNum(n) => n != 0
    case JStr(s) => s != ""
    case JArr(xs) => xs != []
    case JObj(m) => m != map[]
  }

  /** `k` occurs as a contiguous run inside `s` (Python's `k in s` on strings). */
  predicate IsSubstring(k: string, s: string)
    decreases |s|
  {
    k <= s || (|s| > 0 && IsSubstring(k, s[1..]))
  }

  /**
   * Python's `key in container` for a string key: key membership for a dict,
   * element equality for a list, substring for a string; any other operand
   * raises TypeError.
   */
  function In(key: string, container: Json): Outcome<bool>
  {
    match container
    case JObj(m) => Returned(key in m)
    case JArr(xs) => Returned(JStr(key) in xs)
    case JStr(s) => Returned(IsSubstring(key, s))
    case _ => Raised
  }

  /** Python's `obj.get(key, default)`: only a dict has `get`. */
  function Get(obj: Json, key: string, default: Json): Outcome<Json>
  {
    match obj
    case JObj(m) => Returned(if key in m then m[key] else default)
    case _ => Raised
  }
}
