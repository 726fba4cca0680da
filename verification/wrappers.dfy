/** Failure-compatible result types shared by the rest of the model. */
module Wrappers {

  /** An optional value; `None` plays the role of Go's nil. */
  datatype Option<+T> = None | Some(value: T)

  /** A value or an error; usable with `:-` so that a failing step
      ends the computation the way a Go panic or an early `return err` does. */
  datatype Result<+R, +E> = Success(value: R) | Failure(error: E) {

    predicate IsFailure() {
      Failure?
    }

    function PropagateFailure<U>(): Result<U, E>
      requires Failure?
    {
      Failure(error)
    }

    function Extract(): R
      requires Success?
    {
      value
    }
  }
}
