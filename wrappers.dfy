/** Optional values: a Go `error` that may be nil, a pointer that may be nil. */
module Wrappers {

  datatype Option<+T> = None | Some(value: T)

  /** A value or an error, for the Go functions that return `(T, error)`. */
  datatype Result<+T, +E> = Ok(value: T) | Err(error: E)
}
