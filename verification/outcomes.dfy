/** Failure-carrying results for the operations that throw in the toolkit. */
module Outcomes {

  datatype Option<+T> = None | Some(value: T)

  /** The value an operation returns, or the exception it throws. */
  datatype Result<+T, +E> = Success(value: T) | Failure(error: E) {
    predicate IsFailure() {
      Failure?
    }

    function PropagateFailure<U>(): Result<U, E>
      requires Failure?
    {
      Failure(error)
    }

    function Extract(): T
      requires Success?
    {
      value
    }
  }
}
