/** Option and Result, the failure-carrying values used throughout the model. */
module Wrappers {

  /** An optional value: Go's nil pointer or missing value is None. */
  datatype Option<+T> = None | Some(value: T)

  /** The value of a Go function that can return an error. */
  datatype Result<+R, +E> = Success(value: R) | Failure(error: E)
}
