/** Optional values and results shared by every module of the model. */
module Common {

  /** A value that may be absent: an optional property of a configuration object. */
  datatype Option<+T> = None | Some(value: T)

  /** The outcome of an operation that may throw: a value, or the error it throws. */
  datatype Result<+T, +E> = Success(value: T) | Failure(error: E)
}
