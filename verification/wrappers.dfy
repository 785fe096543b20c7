/** Option and Result, the two failure-carrying wrappers used throughout the model. */
module Wrappers {

  datatype Option<+T> = None | Some(value: T)

  /** A completed operation: either its value or the error it raised. */
  datatype Result<+R, +E> = Success(value: R) | Failure(error: E)
}
