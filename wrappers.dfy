/** Failure-carrying values used across the model. */
module Wrappers {

  /** A value that may be absent (a nil result or a nil error in Go). */
  datatype Option<+T> = None | Some(value: T)

  /** Either a value or an error message (a Go `(value, error)` pair). */
  datatype Result<+R, +E> = Ok(value: R) | Err(error: E)
}
