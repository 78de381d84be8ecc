/** Failure-compatible wrappers shared by the runtime and compiler models. */
module Wrappers {

  /** A value that may be absent; stands for a possibly-NULL C pointer. */
  datatype Option<+T> = None | Some(value: T)

  /** The outcome of an operation that may stop on a failed assertion. */
  datatype Result<+T, +E> = Success(value: T) | Failure(error: E) {

    predicate IsFailure() {
      Failure?
    }

    function PropagateFailure<U>(): Result<U, E>
      requires Failure?
    {
      Failure(error)
    }

    function Extract(): T
      requires Success?
    {
      value
    }
  }
}
