/** Failure-carrying values shared by the modules of the release model. */
module Wrappers {

  /** A value that may be missing (JavaScript's `undefined` or `null`). */
  datatype Option<+T> = None | Some(value: T)

  /** The result of an operation that yields a value or fails with an error. */
  datatype Result<+R, +E> = Success(value: R) | Failure(error: E)

  /** The result of an operation that yields nothing but may fail. */
  datatype Outcome<+E> = Pass | Fail(error: E)
}
