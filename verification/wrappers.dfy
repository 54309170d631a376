/** Failure-carrying values shared by the other modules. */
module Wrappers {

  /** A value that may be absent. */
  datatype Option<+T> = None | Some(value: T)

  /** Either a value or an error, in the shape of Rust's `Result`. */
  datatype Result<+T, +E> = Ok(value: T) | Err(error: E)
}
