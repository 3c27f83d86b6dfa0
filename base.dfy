/** Optional values and success-or-error results, used throughout the model. */
module Base {

  /** Python's `Optional[T]`: `None` or a value. */
  datatype Option<T> = None | Some(value: T)

  /** The outcome of an operation: a value, or the error it raises. */
  datatype Result<T, E> = Ok(value: T) | Err(error: E)
}
