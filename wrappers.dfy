/** Option and Result, for the component's nullable fields and for operations that can fail. */
module Wrappers {

  /** A value that may be absent: JavaScript's null or undefined. */
  datatype Option<+T> = None | Some(value: T)

  /** The value of an operation, or the error it raised. */
  datatype Result<+T, +E> = Ok(value: T) | Err(error: E)
}
