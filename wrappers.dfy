/** The failure-carrying datatypes used across the model. */
module Wrappers {

  /** A value that may be absent, as a JSON key that may be missing. */
  datatype Option<+T> = None | Some(value: T)

  /** Either a value or the error that aborted the computation. */
  datatype Result<+R, +E> = Success(value: R) | Failure(error: E)
}
