/** Failure-compatible wrappers used for Java's nullable returns and its exceptions. */
module Common {

  /** A value that Java represents as a reference that may be null. */
  datatype Option<+T> = None | Some(value: T)

  /** The outcome of a call that either returns a value or throws an exception
      carrying a message (`Exception.getMessage()`). */
  datatype Result<+T> = Ok(value: T) | Err(message: string)

  /** The outcome of a `void` call that may throw. */
  datatype Outcome = Pass | Fail(message: string)
}
