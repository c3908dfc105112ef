/** Failure-carrying results shared by the codec and the kinematics engine. */
module Wrappers {

  /** Either a value or a typed error, in place of the exceptions and debug
      assertions of the native code. */
  datatype Result<+T, +E> = Success(value: T) | Failure(error: E) {
    predicate IsFailure() {
      Failure?
    }

    function PropagateFailure<U>(): Result<U, E>
      requires Failure?
    {
      Failure(error)
    }

    function Extract(): T
      requires Success?
    {
      value
    }
  }
}
