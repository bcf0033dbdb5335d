/** Optional values and results with an error, as used across the model. */
module Wrappers {

  /** Python's `X | None`. */
  datatype Option<+T> = None | Some(value: T)

  /** A value or the exception that an operation raised instead. */
  datatype Result<+T, +E> = Success(value: T) | Failure(error: E)
}
