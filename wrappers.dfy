/** Failure-carrying results shared by all modules of the model. */
module Wrappers {

  /** A value that may be absent: a nullable reference or an optional field. */
  datatype Option<+T> = None | Some(value: T)

  /** The result of an operation that throws in the original: a value or the error it throws. */
  datatype Result<+T, +E> = Success(value: T) | Failure(error: E)

  /** The result of a handler that either completes or throws. */
  datatype Outcome<+E> = Pass | Fail(error: E)
}
