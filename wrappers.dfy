/** Failure-carrying return types used where the source raises an exception. */
module Wrappers {

  datatype Option<+T> = None | Some(value: T)

  datatype Result<+R, +E> = Success(value: R) | Failure(error: E)

  /** The outcome of a step that produces nothing but may fail. */
  datatype Outcome<+E> = Pass | Fail(error: E)
}
