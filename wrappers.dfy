/** Option (a Java reference that may be null) and Result (a value or the exception that aborted the computation). */
module Wrappers {

  datatype Option<+T> = None | Some(value: T)

  /** Failure-compatible, so that `:-` propagates an exception the way Java's `throws` does. */
  datatype Result<+T, +E> = Success(value: T) | Failure(error: E) {

    predicate IsFailure() {
      Failure?
    }

    function PropagateFailure<U>(): Result<U, E>
      requires Failure?
    {
      Failure(error)
    }

    function Extract(): T
      requires Success?
    {
      value
    }
  }
}
