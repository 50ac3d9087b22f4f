/** Go's `(value, error)` returns and nil-able values. */
module Wrappers {

  datatype Option<+T> = None | Some(value: T)

  /** A Go function that returns `(T, error)`: either a value and a nil error, or an error. */
  datatype Result<+T, +E> = Ok(value: T) | Err(error: E)
}
