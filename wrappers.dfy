/** Success/failure results for the operations that raise in the source. */
module Wrappers {

  datatype Option<+T> = None | Some(value: T)

  /** A computation that either yields a value or fails with an error. */
  datatype Result<+R, +E> = Ok(value: R) | Err(error: E)
}
