/** Failure-compatible wrappers used across the model. */
module Wrappers {

  /** An optional value; the model's stand-in for Python's `None`. */
  datatype Option<+T> = None | Some(value: T)

  /** A value or an error, for operations whose source raises. */
  datatype Result<+R, +E> = Success(value: R) | Failure(error: E)
}
