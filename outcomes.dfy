/** Option and Result, the failure-compatible wrappers used for the C++ exceptions. */
module Outcomes {

  datatype Option<+T> = None | Some(value: T)

  /** `Failure` stands for a thrown exception, `Success` for a normal return. */
  datatype Result<+T, +E> = Success(value: T) | Failure(error: E) {
    predicate IsFailure() {
      Failure?
    }

    function PropagateFailure<U>(): Result<U, E>
      requires Failure?
    {
      Failure(error)
    }

    function Extract(): T
      requires Success?
    {
      value
    }
  }
}
