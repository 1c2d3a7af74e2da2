/** Option and Result, as the rest of the model uses them. */
module Wrappers {

  datatype Option<+T> = None | Some(value: T)

  /** A computed value, or the error a Ruby call would raise instead. */
  datatype Result<+T, +E> = Ok(value: T) | Err(error: E)
}
