/** Option and Result, used for absent request fields and for failures raised by handlers. */
module Wrappers {

  datatype Option<+T> = None | Some(value: T)

  /** `Err` carries the text of the exception a handler or command raised. */
  datatype Result<+T, +E> = Ok(value: T) | Err(error: E)
}
