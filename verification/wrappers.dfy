/** The two wrapper types of the configuration model.
    - Option<T> stands for a JavaScript value of type `T | undefined`.
    - Result<T, E> stands for a computation that either returns a T or throws
      an E; it may be used with `:-`, which propagates the thrown error. */
module Wrappers {

  datatype Option<+T> = None | Some(value: T)

  datatype Result<+T, +E> = Success(value: T) | Failure(error: E) {

    predicate IsFailure() {
      Failure?
    }

    function PropagateFailure<U>(): Result<U, E>
      requires Failure?
    {
      Failure(error)
    }

    function Extract(): T
      requires Success?
    {
      value
    }
  }
}
