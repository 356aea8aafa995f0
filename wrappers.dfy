/** Option and Result, the two wrappers used throughout the model. */
module Wrappers {

  /** A value that may be missing; Python's None is `None`. */
  datatype Option<+T> = None | Some(value: T)

  /** The outcome of an operation that may raise instead of returning. */
  datatype Result<+T, +E> = Success(value: T) | Failure(error: E)
}
