/**
 * The two calling conventions of the imaging layer. A promise is modelled by
 * the one settlement it ever reaches, and a callback by the one call it
 * receives; the scheduling in between is not modelled.
 */
module Promises {

  import opened JsValues
  import opened Util

  /** What a promise rejects with: an `Error` built from a message, or any other value. */
  datatype Reason = Error(message: string) | Raised(value: JsValue)

  /** The one outcome a promise settles with. */
  datatype Settlement = Fulfilled(value: JsValue) | Rejected(reason: Reason)

  /** The arguments a node-style callback is called with. */
  datatype CallbackArgs =
    | WithResults(results: JsValue)  // callback(null, results)
    | WithError(error: Reason)       // callback(error)

  /**
   * What an operation call does for its caller: it returns a promise that
   * settles once, or it returns undefined and calls the callback once.
   */
  datatype Call =
    | ReturnsPromise(settlement: Settlement)
    | InvokesCallback(callback: JsValue, args: CallbackArgs)

  /** The outcome the caller observes, whichever channel delivers it. */
  function Observed(c: Call): Settlement {
    match c
    case ReturnsPromise(s) => s
    case InvokesCallback(_, WithResults(v)) => Fulfilled(v)
    case InvokesCallback(_, WithError(e)) => Rejected(e)
  }

  /**
   * The dual convention at the end of `buildRequest`: with a valid callback the
   * settlement is handed to it as `(null, results)` or `(error)` and nothing is
   * returned; otherwise the promise itself is returned.
   */
  function Deliver(callback: JsValue, s: Settlement): (c: Call)
    ensures c.InvokesCallback? <==> IsValidCallback(callback)
    ensures c.InvokesCallback? ==> c.callback == callback
    ensures Observed(c) == s
  {
    if IsValidCallback(callback) then
      InvokesCallback(callback, match s
                                case Fulfilled(v) => WithResults(v)
                                case Rejected(e) => WithError(e))
    else
      ReturnsPromise(s)
  }

  /**
   * Both conventions report the same outcome: a caller that passes a function
   * sees exactly what a caller without one sees through the promise, and
   * different outcomes stay distinguishable.
   */
  lemma ConventionsAgree(f: JsValue, s: Settlement, s': Settlement)
    requires IsValidCallback(f)
    ensures Observed(Deliver(f, s)) == Observed(Deliver(Undefined, s))
    ensures Deliver(Undefined, s) == ReturnsPromise(s)
    ensures Deliver(f, s) == Deliver(f, s') <==> s == s'
  {
  }
}
