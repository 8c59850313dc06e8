/** Optional values and results, used for Go's nil pointers, nil errors and (value, error) pairs. */
module Wrappers {

  /** A Go pointer or error that may be nil: None is nil. */
  datatype Option<+T> = None | Some(value: T)

  /** A value or the error that prevented producing it. */
  datatype Result<+T, +E> = Ok(value: T) | Err(error: E)
}
