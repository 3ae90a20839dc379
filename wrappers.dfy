/** Option and Result, the two wrappers every module of the model returns. */
module Wrappers {

  datatype Option<T> = None | Some(value: T)

  /** A `Result<T, E>` as in Rust: the success value or the error. */
  datatype Result<T, E> = Ok(value: T) | Err(error: E)

  /** The unit value `()`, so that `Result<(), E>` can be written. */
  datatype Unit = Unit
}
