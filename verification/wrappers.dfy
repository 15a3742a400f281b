/** Failure-compatible result types shared by every module of the model. */
module Wrappers {

  /** A value that may be missing: a Go nil pointer, an absent header. */
  datatype Option<+T> = None | Some(value: T)

  /** The (value, error) pair a Go function returns, as a sum type. */
  datatype Result<+R, +E> = Success(value: R) | Failure(error: E) {
    predicate IsFailure() {
      Failure?
    }

    function PropagateFailure<U>(): Result<U, E>
      requires Failure?
    {
      Failure(error)
    }

    function Extract(): R
      requires Success?
    {
      value
    }
  }
}
