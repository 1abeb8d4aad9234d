/** Failure-carrying values shared by every module of the model. */
module Wrappers {

  /** A value that may be absent: Python's None, JavaScript's null/undefined. */
  datatype Option<+T> = None | Some(value: T)

  /** The outcome of a validation step: it passes, or it raises with an error. */
  datatype Outcome<+E> = Pass | Fail(error: E)

  /** A computed value or the error raised instead of it. */
  datatype Result<+T, +E> = Ok(value: T) | Err(error: E)
}
