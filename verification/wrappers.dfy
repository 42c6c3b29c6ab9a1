/** Failure-compatible result types used across the model in place of the
    exceptions the engine raises. */
module Wrappers {

  datatype Option<+T> = None | Some(value: T)

  datatype Result<+R, +E> = Success(value: R) | Failure(error: E)

  /** Pass or Fail, for operations whose only output is whether they raised. */
  datatype Outcome<+E> = Pass | Fail(error: E)
}
