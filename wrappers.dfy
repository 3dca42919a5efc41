/** Option and Result, the failure-carrying values used by the rest of the model. */
module Wrappers {

  /** A value that may be absent (Python's `None`). */
  datatype Option<+T> = None | Some(value: T)

  /** The outcome of an operation that may raise instead of returning a value. */
  datatype Result<+R, +E> = Success(value: R) | Failure(error: E)
}
