/** Optional values and results with an error, used throughout the model. */
module Wrappers {

  /** Python's `Optional[T]`: `None` or a value. */
  datatype Option<+T> = None | Some(value: T)

  /** The outcome of an operation that may raise: a value or the exception raised. */
  datatype Result<+T, +E> = Ok(value: T) | Err(error: E)
}
