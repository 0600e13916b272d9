/** The failure-carrying wrappers used throughout the model. */
module Wrappers {
  /** A value that may be absent (`undefined` / `null` in the front end). */
  datatype Option<+T> = None | Some(value: T)

  /** The outcome of an operation that may throw: a value, or the thrown error. */
  datatype Result<+T, +E> = Ok(value: T) | Err(error: E)
}
