/** Option and Result, used for the Go `(value, error)` returns of the model. */
module Wrappers {

  datatype Option<+T> = None | Some(value: T)

  /** A Go `(T, error)` return: a value, or an error message. */
  datatype Result<+T> = Ok(value: T) | Err(msg: string)
}
