/** Failure-carrying values used wherever the source returns an error or may panic. */
module Wrappers {

  /** A value that may be absent. */
  datatype Option<+T> = None | Some(value: T)

  /** Either a value or an error. */
  datatype Result<+T, +E> = Ok(value: T) | Err(error: E)
}
