/** Failure-carrying values shared by the other modules. */
module Wrappers {

  /** A value that may be absent; stands for a possibly-nil pointer. */
  datatype Option<+T> = None | Some(value: T)

  /** Either a value or the error that prevented producing it. */
  datatype Result<+R, +E> = Success(value: R) | Failure(error: E)
}
