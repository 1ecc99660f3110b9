/** Failure-carrying results shared by every module of the model. */
module Wrappers {

  datatype Option<+T> = None | Some(value: T)

  datatype Result<+R, +E> = Success(value: R) | Failure(error: E)

  /** A pass/fail outcome for operations that return nothing on success. */
  datatype Outcome<+E> = Pass | Fail(error: E)
}
