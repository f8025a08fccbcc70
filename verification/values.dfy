/** Option, Result and the part of the JavaScript value space the modelled code inspects. */
module Values {

  /** An optional value; `None` stands for JavaScript's `undefined` where a field may be absent. */
  datatype Option<+T> = None | Some(value: T)

  /** The outcome of an operation that throws in the source: `Failure` carries the exception kind. */
  datatype Result<+T, +E> = Success(value: T) | Failure(error: E)

  /** A JavaScript value, as far as truthiness, strict equality and template rendering go.
      Non-integer numbers are not represented. An array is its reference and its elements;
      every other object and every function is an `Object`. */
  datatype JsValue =
    | Undefined
    | Null
    | Bool(b: bool)
    | Num(n: int)
    | NaN
    | Str(s: string)
    | Array(ref: nat, elems: seq<JsValue>)
    | Object(ref: nat)

  /** ToBoolean (section 7.1.2 of ECMA-262): the test behind `if (x)`, `!x` and `x && y`. */
  predicate Truthy(v: JsValue) {
    match v
    case Undefined => false
    case Null => false
    case NaN => false
    case Bool(b) => b
    case Num(n) => n != 0
    case Str(s) => s != ""
    case Array(_, _) => true
    case Object(_) => true
  }

  /** The values `??` replaces: `null` and `undefined`. */
  predicate Nullish(v: JsValue) {
    v.Undefined? || v.Null?
  }
}
