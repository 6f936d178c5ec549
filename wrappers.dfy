/** Option and Result, the failure-compatible wrappers the model is written with. */
module Wrappers {

  /** `nil` versus a present object. */
  datatype Option<+T> = None | Some(value: T)

  /** A value, or the error an operation raised instead of returning. */
  datatype Result<+T, +E> = Ok(value: T) | Err(error: E) {

    predicate IsFailure() {
      Err?
    }

    function PropagateFailure<U>(): Result<U, E>
      requires Err?
    {
      Err(error)
    }

    function Extract(): T
      requires Ok?
    {
      value
    }
  }
}
