/** Rust's `Option` and `Result`, used wherever the source returns one. */
module Prelude {

  datatype Option<+T> = None | Some(value: T)

  datatype Result<+T, +E> = Ok(value: T) | Err(error: E)

  /** The unit value `()` of `Result<(), String>`. */
  datatype Unit = Unit
}
