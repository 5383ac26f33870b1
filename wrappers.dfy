/** Failure-carrying values used across the model. */
module Wrappers {

  /** A value that may be absent. */
  datatype Option<+T> = None | Some(value: T)

  /** A computation that either produced a value or threw. */
  datatype Result<+T, +E> = Success(value: T) | Failure(error: E)
}
