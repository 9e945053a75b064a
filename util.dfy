/**
 * The argument checks the imaging layer borrows from its utility module
 * (`Util.isInvalidValue` and `Util.isValidCallback`). Only the part the layer
 * relies on is modelled: a check passes exactly when the value has the kind
 * asked for.
 */
module Util {

  import opened JsValues

  /** The kinds the imaging layer asks `isInvalidValue` about. */
  datatype Kind = StringKind | ObjectKind | FunctionKind

  function KindName(k: Kind): string {
    match k
    case StringKind => "string"
    case ObjectKind => "object"
    case FunctionKind => "function"
  }

  predicate HasKind(v: JsValue, k: Kind) {
    match k
    case StringKind => v.Str?
    case ObjectKind => v.Obj?
    case FunctionKind => v.Func?
  }

  /**
   * `Util.isInvalidValue(v, kind)`: the empty string (falsy) when `v` has the
   * kind, a non-empty description of the mismatch otherwise.
   */
  function IsInvalidValue(v: JsValue, k: Kind): (msg: string)
    ensures msg == "" <==> HasKind(v, k)
  {
    if HasKind(v, k) then "" else "The type of the value must be \"" + KindName(k) + "\"."
  }

  /** `Util.isValidCallback(v)`: the value can be called. */
  predicate IsValidCallback(v: JsValue) {
    v.Func?
  }
}
