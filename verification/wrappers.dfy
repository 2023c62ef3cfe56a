/** Failure-carrying wrappers used across the model. */
module Wrappers {
  /** Python's `X | None`. */
  datatype Option<+T> = None | Some(value: T)

  /** A value or the message of the exception that replaced it. */
  datatype Result<+T, +E> = Ok(value: T) | Err(error: E)
}
