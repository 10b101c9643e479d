/** Failure-carrying result types used for the thrown errors and nullable
    values of the classifier. */
module Wrappers {

  /** A value that may be absent (a TypeScript `T | null`). */
  datatype Option<+T> = None | Some(value: T)

  /** A call that either returns a value or throws an error with a message. */
  datatype Result<+R, +E> = Success(value: R) | Failure(error: E)

  /** A call without a return value that either completes or throws. */
  datatype Outcome<+E> = Pass | Fail(error: E)
}
