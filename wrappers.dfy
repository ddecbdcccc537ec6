/** Option and Result, spelled as in the Rust code the model follows. */
module Wrappers {

  datatype Option<+T> = None | Some(value: T)

  datatype Result<+T, +E> = Ok(value: T) | Err(error: E)

  /** The unit value `()`, for operations that return `Result<(), E>`. */
  datatype Unit = Unit
}
