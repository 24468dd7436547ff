/** Failure-carrying values used in place of the source's thrown errors and nullable values. */
module Wrappers {

  /** A value that may be absent: `undefined`/`null` in the source. */
  datatype Option<+T> = None | Some(value: T)

  /** The outcome of an operation that returns a value or rejects with an error. */
  datatype Result<+R, +E> = Success(value: R) | Failure(error: E)

  /** The outcome of an operation that returns nothing or rejects with an error. */
  datatype Outcome<+E> = Pass | Fail(error: E)
}
