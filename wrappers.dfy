/** Failure-compatible result types shared by the model. */
module Wrappers {

  /** A value that may be absent; stands for a nullable Java reference. */
  datatype Option<+T> = None | Some(value: T)

  /** A computed value, or the error that aborted the computation. */
  datatype Result<+T, +E> = Ok(value: T) | Err(error: E)

  /** Success without a value, or the error that aborted the step. */
  datatype Outcome<+E> = Pass | Fail(error: E)
}
