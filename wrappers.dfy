/** Option and Result values shared by the weather modules. */
module Wrappers {

  datatype Option<+T> = None | Some(value: T)

  /** The outcome of an operation that may throw: a value, or what was thrown. */
  datatype Result<+T, +E> = Ok(value: T) | Err(error: E)
}
