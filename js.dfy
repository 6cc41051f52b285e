/**
 * The few JavaScript value semantics the storefront's logic branches on:
 * truthiness, `typeof x === 'number'`, and what a `catch` clause reads off a
 * thrown value. Numbers are integers (money is counted in cents), so `NaN`
 * and fractional values do not arise.
 */
module Js {
  import opened Wrappers

  /** A JSON-decoded scalar field of a request body. */
  datatype JsValue =
    | Undefined
    | Null
    | Bool(b: bool)
    | Number(n: int)
    | Str(s: string)
    | Object

  /** JavaScript truthiness: `undefined`, `null`, `false`, `0` and `""` are falsy. */
  predicate Truthy(v: JsValue)
  {
    match v
    case Undefined => false
    case Null => false
    case Bool(b) => b
    case Number(n) => n != 0
    case Str(s) => s != ""
    case Object => true
  }

  /** Truthiness of a string-typed field that may be missing: present and non-empty. */
  predicate Present(s: Option<string>)
  {
    s.Some? && s.value != ""
  }

  /** A value reaching a `catch` clause: an `Error` object (with its message) or anything else. */
  datatype Thrown = ErrorObject(message: string) | NonError

  /** `error instanceof Error ? error.message : fallback`. */
  function CaughtMessage(t: Thrown, fallback: string): (m: string)
    ensures t.ErrorObject? ==> m == t.message
    ensures t.NonError? ==> m == fallback
  {
    match t
    case ErrorObject(message) => message
    case NonError => fallback
  }

  /**
   * What an awaited `fetch(...)` followed by `response.json()` gives the caller:
   * a response whose `ok` flag is false, a decoded body, or a rejection (a
   * network failure or a body that is not JSON) carrying the thrown value.
   */
  datatype Fetched<T> = NotOk | Ok(body: T) | Rejected(thrown: Thrown)
}
