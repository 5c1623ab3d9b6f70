/** Option and Result, the two failure-carrying values the model uses. */
module Wrappers {

  /** A value that may be absent: None stands for a missing or NaN table cell. */
  datatype Option<+T> = None | Some(value: T)

  /** The outcome of an operation that can fail with an error value. */
  datatype Result<+R, +E> = Success(value: R) | Failure(error: E)
}
