/**
 * JavaScript values as the core handles them: request bodies, JWT payloads,
 * JSON replies and form state.
 */
module JsValues {

  /**
   * A JSON-compatible JavaScript value. Numbers are finite (JSON has no NaN);
   * `Composite` stands for any object or array whose inner structure the core
   * never inspects.
   */
  datatype JsValue =
    | Undefined
    | Null
    | Bool(b: bool)
    | Num(x: real)
    | Str(s: string)
    | Composite

  /** ECMAScript ToBoolean: `undefined`, `null`, `false`, `0` and `""` are falsy, all else is truthy. */
  predicate Truthy(v: JsValue) {
    match v
    case Undefined => false
    case Null => false
    case Bool(b) => b
    case Num(x) => x != 0.0
    case Str(s) => s != ""
    case Composite => true
  }

  /** A plain object (request body, token payload) as its own properties. */
  type Object = map<string, JsValue>

  /** Property access `o.key`: a missing property reads as `undefined`. */
  function Get(o: Object, key: string): JsValue {
    if key in o then o[key] else Undefined
  }

  /**
   * The relational test `v < n` against an integer `n`, with JavaScript's
   * ToNumber applied to `v`: `true`/`false` become 1/0, `null` becomes 0 and
   * `undefined` becomes NaN, which compares false.
   */
  predicate LessThan(v: JsValue, n: int) {
    match v
    case Num(x) => x < n as real
    case Bool(b) => (if b then 1 else 0) < n
    case Null => 0 < n
    case Undefined => false
    case Str(_) => false
    case Composite => false
  }
}
