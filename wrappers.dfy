/** Failure-compatible wrappers used for the scanner's "may fail" results. */
module Wrappers {

  datatype Option<+T> = None | Some(value: T)

  /** A validation or parse step either yields a value or says why it failed. */
  datatype Result<+R, +E> = Success(value: R) | Failure(error: E)
}
