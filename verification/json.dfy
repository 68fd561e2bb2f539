/**
 * JSON-shaped values: the arguments a caller passes to a tool, the bodies the
 * remote platform returns, and the sanitized payloads the server serializes.
 */
module JsonValue {
  import opened Wrappers

  /** A JSON value. Numbers are reals so that a fractional number can reach an integer check. */
  datatype Json =
    | JNull
    | JBool(b: bool)
    | JNum(n: real)
    | JStr(s: string)
    | JArr(items: seq<Json>)
    | JObj(fields: map<string, Json>)

  /** Reading a property of an object; an absent property reads as `undefined`. */
  function Get(m: map<string, Json>, key: string): Option<Json> {
    if key in m then Some(m[key]) else None
  }

  /** JavaScript truthiness of a property read (`undefined` is `None`). */
  predicate Truthy(v: Option<Json>)
    ensures Truthy(v) ==> v.Some? && v.value != JNull
    ensures v.Some? && (v.value.JArr? || v.value.JObj?) ==> Truthy(v)
  {
    match v
    case None => false
    case Some(JNull) => false
    case Some(JBool(b)) => b
    case Some(JNum(n)) => n != 0.0
    case Some(JStr(s)) => s != ""
    case Some(JArr(_)) => true
    case Some(JObj(_)) => true
  }

  /** `Number.isInteger` on a finite number. */
  predicate IsIntegral(n: real) {
    n.Floor as real == n
  }
}
