/** Optional values and outcomes that may carry an error, shared by every module. */
module Wrappers {

  /** A value that may be absent: Python's `None` is `None` here. */
  datatype Option<+T> = None | Some(value: T)

  /** The result of an operation that may raise: `Failure` carries the exception's message. */
  datatype Result<+R, +E> = Success(value: R) | Failure(error: E)
}
