/** Failure-carrying values shared by the whole model. */
module Wrappers {

  /** A value that may be missing. */
  datatype Option<+T> = None | Some(value: T)

  /** A value, or the error that stopped it from being computed. */
  datatype Result<+T, +E> = Success(value: T) | Failure(error: E)

  /** Success without a value, or an error (Go's bare `error` return). */
  datatype Outcome<+E> = Pass | Fail(error: E)
}
