/** Optional values (Python's None) and outcomes that may carry a raised error. */
module Options {

  /** A value that may be absent, as a Python name bound to None. */
  datatype Option<+T> = None | Some(value: T)

  /** The result of a call that either returns a value or raises an error. */
  datatype Result<+T, +E> = Success(value: T) | Failure(error: E)
}
