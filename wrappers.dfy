/** Failure-compatible wrappers used throughout the model. */
module Wrappers {

  /** A value that may be absent: an unset environment variable, an undecodable body. */
  datatype Option<+T> = None | Some(value: T)

  /** The value of a Python expression that either evaluates or raises. */
  datatype Result<+T, +E> = Ok(value: T) | Err(error: E) {

    predicate IsFailure() {
      Err?
    }

    function PropagateFailure<U>(): Result<U, E>
      requires Err?
    {
      Err(error)
    }

    function Extract(): T
      requires Ok?
    {
      value
    }
  }
}
