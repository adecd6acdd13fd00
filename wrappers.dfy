/** Optional values and error-or-value results shared by every module of the model. */
module Wrappers {

  /** A value that may be absent: Python's `None` or a missing dictionary key. */
  datatype Option<T> = None | Some(value: T)

  /** The outcome of an operation that either succeeds or raises one of the source's errors. */
  datatype Result<T, E> = Ok(value: T) | Err(error: E)
}
