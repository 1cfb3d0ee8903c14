/** Failure-carrying result types shared by the writer and the configuration model. */
module Wrappers {

  /** A value that may be missing: an unset record field, a missing key. */
  datatype Option<+T> = None | Some(value: T)

  /** The outcome of an operation that returns nothing or raises. */
  datatype Outcome<+E> = Pass | Fail(error: E)

  /** The outcome of an operation that returns a value or raises. */
  datatype Result<+R, +E> = Success(value: R) | Failure(error: E)
}
