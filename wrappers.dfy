/** Option and Result datatypes shared by the whole model. `Result` is
    failure-compatible, so `:-` propagates the engine's errors the way the
    source's `throw` does. */
module Wrappers {

  datatype Option<+T> = None | Some(value: T) {

    /** `v ?? fallback` for a value that is either a number or `undefined`. */
    function GetOr(fallback: T): T {
      match this
      case Some(v) => v
      case None => fallback
    }
  }

  datatype Result<+T, +E> = Ok(value: T) | Err(error: E) {

    predicate IsFailure() {
      Err?
    }

    function PropagateFailure<U>(): Result<U, E>
      requires Err?
    {
      Err(error)
    }

    function Extract(): T
      requires Ok?
    {
      value
    }
  }
}
