/** Failure-compatible wrappers used across the model. */
module Wrappers {

  /** An optional value: a nullable foreign key, a lookup that may miss. */
  datatype Option<+T> = None | Some(value: T)

  /** Either a value or the error that the source raises instead. */
  datatype Result<+R, +E> = Success(value: R) | Failure(error: E)
}
