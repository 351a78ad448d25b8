/** Failure-compatible result types used by the model. */
module Wrappers {

  datatype Option<+T> = None | Some(value: T)

  /** A value, or the error that stopped its computation. */
  datatype Result<+R, +E> = Success(value: R) | Failure(error: E)

  /** Completion of an operation that returns nothing, or the error that stopped it. */
  datatype Outcome<+E> = Pass | Fail(error: E)
}
