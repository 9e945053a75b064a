/**
 * JavaScript values as the imaging layer sees them: the arguments callers pass,
 * the properties it reads from them, JS truthiness, the string conversion done
 * by template literals and `+`, and the exceptions the code can throw.
 */
module JsValues {

  /**
   * A JavaScript value. A number is held by the text Number::toString gives
   * for it: that text decides both its truthiness (+0, -0 and NaN render as
   * "0" and "NaN", every other number renders differently) and what `${n}`
   * inserts, so no floating point is needed. A function is held by its source
   * text, which is what `${f}` inserts. An object is a map of own properties.
   */
  datatype JsValue =
    | Undefined
    | Null
    | Str(s: string)
    | Num(text: string)
    | Bool(b: bool)
    | Func(source: string)
    | Obj(props: map<string, JsValue>)

  /** `v === undefined || v === null` */
  predicate IsNullish(v: JsValue) {
    v.Undefined? || v.Null?
  }

  /** The value of `!!v`. */
  predicate Truthy(v: JsValue) {
    match v
    case Undefined => false
    case Null => false
    case Str(s) => s != ""
    case Num(text) => text != "0" && text != "NaN"
    case Bool(b) => b
    case Func(_) => true
    case Obj(_) => true
  }

  /** The text `${v}` inserts (and `"" + v` appends) for a value. */
  function ToStr(v: JsValue): string {
    match v
    case Undefined => "undefined"
    case Null => "null"
    case Str(s) => s
    case Num(text) => text
    case Bool(b) => if b then "true" else "false"
    case Func(source) => source
    case Obj(_) => "[object Object]"
  }

  /**
   * The value of `v.key` for a value that is not undefined or null: an own
   * property of an object, and undefined otherwise (the property names the
   * layer reads are not built-in properties of strings, numbers, booleans or
   * functions).
   */
  function Prop(v: JsValue, key: string): JsValue {
    if v.Obj? && key in v.props then v.props[key] else Undefined
  }

  /** An exception thrown synchronously out of an operation. */
  datatype Exception =
    | ReferenceError(identifier: string)          // `identifier is not defined`
    | TypeErrorReadingProperty(property: string)  // `Cannot read properties of undefined/null (reading 'property')`

  /** The completion of a JavaScript expression: a value or a thrown exception. */
  datatype Evaluation<+T> = Normal(value: T) | Abrupt(exception: Exception)

  /**
   * `v.key` as an evaluation: reading a property of undefined or null throws,
   * any other read yields `Prop(v, key)`.
   */
  function ReadProp(v: JsValue, key: string): (r: Evaluation<JsValue>)
    ensures r.Abrupt? <==> IsNullish(v)
    ensures r.Abrupt? ==> r.exception == TypeErrorReadingProperty(key)
  {
    if IsNullish(v) then Abrupt(TypeErrorReadingProperty(key)) else Normal(Prop(v, key))
  }
}
