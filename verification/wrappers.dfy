/** Failure-compatible wrappers used throughout the model: `Option` for a
    value that may be absent (Python `None`, an attribute never set) and
    `Result` for an operation that may raise. */
module Wrappers {

  datatype Option<+T> = None | Some(value: T)

  /** The outcome of a Python call: its value, or the exception it raised. */
  datatype Result<+T, +E> = Success(value: T) | Failure(error: E) {

    predicate IsFailure() {
      Failure?
    }

    function PropagateFailure<U>(): Result<U, E>
      requires Failure?
    {
      Failure(error)
    }

    function Extract(): T
      requires Success?
    {
      value
    }
  }
}
