/** Failure-carrying wrappers used to model Python's `None` and raised exceptions. */
module Wrappers {

  /** A value that may be absent (Python's `None`). */
  datatype Option<+T> = None | Some(value: T)

  /** The outcome of a computation that either returns a value or raises. */
  datatype Result<+R, +E> = Ok(value: R) | Err(error: E)

  /** The outcome of a statement that either completes or raises. */
  datatype Outcome<+E> = Pass | Fail(error: E)
}
