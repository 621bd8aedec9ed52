/**
 * JavaScript values as they reach the handlers of the application: request
 * body fields, JSON fields copied from upstream feeds, and the optional values
 * (`null`/`undefined` versus present) that the TypeScript code tests with `!x`.
 */
module JsValues {

  /** A present value or JavaScript's `null`/`undefined`. */
  datatype Option<+T> = None | Some(value: T)

  /**
   * A JavaScript value, as far as the application looks at it. Numbers are
   * kept as reals and never computed with; `NaN` is its own constructor
   * because it is the one falsy number besides zero.
   */
  datatype JsValue =
    | Undefined
    | Null
    | Bool(b: bool)
    | Number(x: real)
    | NaN
    | Str(s: string)
    | Object

  /**
   * JavaScript truthiness (`!!v`): every value is truthy except the six
   * falsy ones, `undefined`, `null`, `false`, `0`, `NaN` and `""`.
   */
  predicate Truthy(v: JsValue)
    ensures Truthy(v) <==> v !in {Undefined, Null, Bool(false), Number(0.0), NaN, Str("")}
  {
    match v
    case Undefined => false
    case Null => false
    case Bool(b) => b
    case Number(x) => x != 0.0
    case NaN => false
    case Str(s) => s != ""
    case Object => true
  }

  /** Truthiness of an optional string (`undefined`, `null` and `""` are falsy). */
  predicate PresentText(s: Option<string>)
  {
    s.Some? && s.value != ""
  }
}
