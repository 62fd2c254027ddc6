/** Failure-carrying result types shared by the other modules. */
module Wrappers {

  datatype Option<+T> = None | Some(value: T)

  /** A value, or the error the JavaScript code rejects its promise with (or throws). */
  datatype Result<+R, +E> = Success(value: R) | Failure(error: E)

  /** The outcome of a handler that produces no value. */
  datatype Outcome<+E> = Pass | Fail(error: E)
}
