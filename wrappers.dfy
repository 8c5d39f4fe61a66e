/** Option and Result: absence of a value and the Python exceptions the core raises. */
module Wrappers {

  datatype Option<+T> = None | Some(value: T)

  /** A failure carries a short description of the exception the source raises. */
  datatype Result<+T> = Ok(value: T) | Err(error: string)
}
