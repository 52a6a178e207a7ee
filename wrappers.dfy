/** Option and Result values shared by every module of the model. */
module Wrappers {

  /** A value that may be absent (JavaScript `null`, Python `None`). */
  datatype Option<+T> = None | Some(value: T)

  /** The outcome of an operation that can fail; `Err` carries the reason. */
  datatype Result<+T, +E> = Ok(value: T) | Err(error: E)
}
