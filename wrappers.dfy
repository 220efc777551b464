/** Option and Result, the two failure-carrying shapes used throughout the model. */
module Wrappers {

  /** Python's `None` / a present value. */
  datatype Option<+T> = None | Some(value: T)

  /** A value or the exception that was raised instead. */
  datatype Result<+T, +E> = Ok(value: T) | Err(error: E)
}
