/** Failure-carrying return values, standing in for Go's `(value, error)` pairs. */
module Wrappers {

  /** A value that may be absent; `None` plays the part of Go's `nil`. */
  datatype Option<+T> = None | Some(value: T)

  /** Either a successful value or the error the callee returned. */
  datatype Result<+T, +E> = Ok(value: T) | Err(error: E)
}
