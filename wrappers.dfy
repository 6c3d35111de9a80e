/** Option, for a value that may be missing, and Result, for a value or the errors that replace it. */
module Wrappers {

  datatype Option<+T> = None | Some(value: T)

  datatype Result<+R, +E> = Success(value: R) | Failure(error: E)
}
