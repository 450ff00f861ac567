/** Failure-carrying results: the model's stand-in for null returns and thrown errors. */
module Wrappers {

  /** A value that may be absent (a null search result, a NaN number). */
  datatype Option<+T> = None | Some(value: T)

  /** The value of a computation, or the error it raised. */
  datatype Result<+T, +E> = Success(value: T) | Failure(error: E)
}
