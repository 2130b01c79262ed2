/** Failure-carrying result types shared by the other modules. */
module Wrappers {

  datatype Option<+T> = None | Some(value: T)

  /** The outcome of an operation that either succeeds with a value or
      reports a user-facing error message. */
  datatype Result<+R> = Success(value: R) | Failure(error: string)
}
