/** Optional values and failure-carrying results, shared by every module. */
module Wrappers {

  /** A value that may be absent: Python's `None` or a SQL NULL. */
  datatype Option<+T> = None | Some(value: T)

  /** The outcome of an operation that can be refused. */
  datatype Result<+R, +E> = Success(value: R) | Failure(error: E)
}
