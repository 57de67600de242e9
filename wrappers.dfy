/** Failure-carrying values used in place of Java's null references and exceptions. */
module Wrappers {

  /** A value that may be absent (a Java reference that may be null). */
  datatype Option<+T> = None | Some(value: T)

  /** Either a computed value or the exception the Java code would throw. */
  datatype Result<+T, +E> = Ok(value: T) | Err(error: E)

  /** The outcome of a `void` Java method that may throw. */
  datatype Outcome<+E> = Pass | Fail(error: E)
}
