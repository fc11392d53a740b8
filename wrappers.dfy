/** Value wrappers shared by the session models: an optional value (a JavaScript
    `undefined`/`null` or a present value) and the settled outcome of an awaited
    step (a resolved or a rejected promise). */
module Wrappers {

  datatype Option<+T> = None | Some(value: T) {
    /** The JavaScript nullish-coalescing operator `this ?? fallback`. */
    function OrElse(fallback: T): T {
      match this
      case Some(v) => v
      case None => fallback
    }
  }

  /** How an awaited operation settled: resolved, or rejected with a message. */
  datatype Outcome = Ok | Err(message: string)
}
