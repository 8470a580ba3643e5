/** Failure-compatible datatypes standing in for Java's null and thrown exceptions. */
module Wrappers {

  /** A value that may be absent (Java's nullable reference). */
  datatype Option<+T> = None | Some(value: T)

  /** Either the value an operation returns or the exception it throws. */
  datatype Result<+T, +E> = Success(value: T) | Failure(error: E)
}
