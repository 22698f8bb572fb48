/** Optional values and results, standing for Go's nil pointers and
    (value, error) pairs. */
module Wrappers {

  /** A value that may be absent, like a Go pointer that may be nil. */
  datatype Option<+T> = None | Some(value: T)

  /** Either a value or an error. */
  datatype Result<+T, +E> = Ok(value: T) | Err(error: E)
}
