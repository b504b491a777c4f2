/** Option and Result types, shaped after Swift's `Optional` and `Result<Success, Failure>`. */
module Wrappers {

  datatype Option<+T> = None | Some(value: T)

  /** Swift's `Result`: `.success(value)` or `.failure(error)`; usable with `:-`. */
  datatype Result<+T, +E> = Success(value: T) | Failure(error: E) {

    predicate IsFailure() {
      Failure?
    }

    function PropagateFailure<U>(): Result<U, E>
      requires Failure?
    {
      Failure(error)
    }

    function Extract(): T
      requires Success?
    {
      value
    }
  }
}
