/** Failure-compatible wrappers shared by every module of the model. */
module Wrappers {

  /** A value that may be missing: Go's nil pointer, an absent map key, or "no result". */
  datatype Option<+T> = None | Some(value: T)

  /** Either a value or the error the Go code returns in its place. */
  datatype Result<+R, +E> = Success(value: R) | Failure(error: E)
}
