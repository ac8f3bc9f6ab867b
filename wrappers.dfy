/** Option and Result, the failure-compatible wrappers used throughout the model. */
module Wrappers {

  datatype Option<+T> = None | Some(value: T)

  /** A computation that either produced a value or threw `error`. */
  datatype Result<+R, +E> = Success(value: R) | Failure(error: E)
}
