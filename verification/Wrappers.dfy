/** Optional values and results: the model's form of a Go `(value, ok)` or `(value, error)` pair. */
module Wrappers {
  datatype Option<+T> = None | Some(value: T)

  datatype Result<+T, +E> = Success(value: T) | Failure(error: E)
}
