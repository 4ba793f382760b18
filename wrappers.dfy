/** Failure-compatible result types used across the model. */
module Wrappers {

  /** A value that may be absent; stands for a nullable reference. */
  datatype Option<+T> = None | Some(value: T)

  /** A computed value or the error (exception) that replaced it. */
  datatype Result<+T, +E> = Success(value: T) | Failure(error: E)

  /** A step that either completes or fails with an error (exception). */
  datatype Outcome<+E> = Pass | Fail(error: E)
}
