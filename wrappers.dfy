/** Failure-compatible wrappers used across the model. */
module Wrappers {

  datatype Option<+T> = None | Some(value: T)

  /** The outcome of a lookup that the source reports by raising an exception with a message. */
  datatype Result<+T, +E> = Ok(value: T) | Err(error: E)
}
