/**
 * The JavaScript values that the handlers inspect: JSON values as `JSON.parse`
 * produces them (numbers restricted to integers), JavaScript truthiness, and the
 * optional-chaining steps `v?.name` and `v?.[0]` together with `v || fallback`.
 * An `Option<Json>` is a value that may be `undefined` (`None`).
 */
module Js {
  import opened Wrappers

  datatype Json =
    | JNull
    | JBool(b: bool)
    | JInt(n: int)
    | JString(s: string)
    | JArray(items: seq<Json>)
    | JObject(members: map<string, Json>)

  /** ToBoolean of a JSON value: null, false, 0 and "" are falsy. */
  predicate Truthy(v: Json) {
    match v
    case JNull => false
    case JBool(b) => b
    case JInt(n) => n != 0
    case JString(s) => s != ""
    case JArray(_) => true
    case JObject(_) => true
  }

  /** A possibly-undefined value that is defined and truthy: the opposite of `!v`. */
  predicate Given(v: Option<Json>) {
    v.Some? && Truthy(v.value)
  }

  /**
   * `v?.name`, for a property name that is neither a built-in property of
   * strings, arrays or numbers nor inherited from Object.prototype: only an
   * object's own member is found; undefined and null short-circuit.
   */
  function Member(v: Option<Json>, name: string): Option<Json> {
    match v
    case Some(JObject(m)) => if name in m then Some(m[name]) else None
    case _ => None
  }

  /**
   * `v?.[0]`: the first element of an array, the member "0" of an object, the
   * first character of a string; undefined for everything else.
   */
  function First(v: Option<Json>): Option<Json> {
    match v
    case Some(JArray(xs)) => if |xs| > 0 then Some(xs[0]) else None
    case Some(JObject(m)) => if "0" in m then Some(m["0"]) else None
    case Some(JString(s)) => if |s| > 0 then Some(JString([s[0]])) else None
    case _ => None
  }

  /** `v || fallback`. */
  function Or(v: Option<Json>, fallback: Json): (r: Json)
    ensures Given(v) ==> r == v.value
    ensures !Given(v) ==> r == fallback
  {
    if Given(v) then v.value else fallback
  }
}
