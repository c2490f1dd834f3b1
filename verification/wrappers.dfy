/** Failure-compatible datatypes used throughout the model. */
module Wrappers {

  /** An optional value. */
  datatype Option<+T> = None | Some(value: T)

  /** Either a value or the error a JavaScript operation would throw. */
  datatype Result<+T, +E> = Success(value: T) | Failure(error: E) {

    predicate IsFailure() {
      Failure?
    }

    function PropagateFailure<U>(): Result<U, E>
      requires Failure?
    {
      Failure(error)
    }

    function Extract(): T
      requires Success?
    {
      value
    }
  }
}
