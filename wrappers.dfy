/** Option and Result, the shapes of Go's "value or nil" and "(value, error)" returns. */
module Wrappers {

  datatype Option<+T> = None | Some(value: T)

  /** A Go `error` value, reduced to the text it prints. */
  datatype Error = Error(message: string)

  datatype Result<+T> = Ok(value: T) | Err(error: Error)
}
