/** Failure-compatible Option and Result types used for the router's error paths. */
module Wrappers {

  datatype Option<+T> = None | Some(value: T)

  /** A Python call either returns a value or raises; `Failure` carries the exception. */
  datatype Result<+R, +E> = Success(value: R) | Failure(error: E) {

    predicate IsFailure() {
      Failure?
    }

    function PropagateFailure<U>(): Result<U, E>
      requires Failure?
    {
      Failure(error)
    }

    function Extract(): R
      requires Success?
    {
      value
    }
  }
}
