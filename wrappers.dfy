/** Option and Result, used for Java's nullable references and thrown exceptions. */
module Wrappers {
  /** A Java reference that may be null. */
  datatype Option<+T> = None | Some(value: T)

  /** The outcome of a Java call that either returns or throws. */
  datatype Result<+T, +E> = Success(value: T) | Failure(error: E)
}
