/** Optional values and results with an error, as used across the model. */
module Wrappers {

  /** A value that may be absent: Java's Optional, or a nullable reference. */
  datatype Option<+T> = None | Some(value: T)

  /** The outcome of an operation that may throw: the value or the exception. */
  datatype Result<+R, +E> = Ok(value: R) | Err(error: E)
}
