/** Absent values and error returns. */
module Wrappers {

  datatype Option<+T> = None | Some(value: T)

  /** A handler either answers or raises an HTTP error. */
  datatype Result<+T, +E> = Ok(value: T) | Err(error: E)
}
