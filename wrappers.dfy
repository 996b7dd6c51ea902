/** Failure-compatible wrappers used for Java's Optional, thrown exceptions and void calls. */
module Wrappers {

  /** java.util.Optional: a value or nothing. */
  datatype Option<+T> = None | Some(value: T)

  /** The outcome of a Java call that returns a value or throws. */
  datatype Result<+T, +E> = Ok(value: T) | Err(error: E)

  /** The outcome of a Java call that returns nothing or throws. */
  datatype Outcome<+E> = Pass | Fail(error: E)
}
