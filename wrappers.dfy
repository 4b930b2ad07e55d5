/** Option and Result, the model's stand-ins for Go's nil pointers and error returns. */
module Wrappers {

  /** A Go pointer or optional value: None is nil. */
  datatype Option<+T> = None | Some(value: T)

  /** A value or the error that took its place. */
  datatype Result<+R, +E> = Ok(value: R) | Err(error: E)
}
