/** Option and Result, the two wrappers the model uses for Java's null and exceptions. */
module Wrappers {

  /** A value that may be absent (Java's `null`). */
  datatype Option<+T> = None | Some(value: T)

  /** The outcome of an operation that may raise: a value, or the reason it failed. */
  datatype Result<+T, +E> = Ok(value: T) | Err(error: E)
}
