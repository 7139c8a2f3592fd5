/** Option and Result, the two failure-carrying shapes used throughout the model. */
module Wrappers {

  datatype Option<+T> = None | Some(value: T)

  /** The value of a fallible computation: `Ok` with a value or `Err` with an error. */
  datatype Result<+T, +E> = Ok(value: T) | Err(error: E)
}
