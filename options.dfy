/** Failure-carrying wrappers used across the model in place of Java's null and exceptions. */
module Options {

  /** A value that may be absent (a Java reference that may be null). */
  datatype Option<+T> = None | Some(value: T)

  /** The outcome of an operation that returns nothing but may throw. */
  datatype Outcome<+E> = Pass | Fail(error: E)

  /** A value or the error thrown while computing it. */
  datatype Result<+T, +E> = Success(value: T) | Failure(error: E)
}
