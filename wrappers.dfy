/** Optional values and results that carry an error, used across the model. */
module Wrappers {
  datatype Option<T> = None | Some(value: T)

  datatype Result<T, E> = Success(value: T) | Failure(error: E)
  {
    predicate IsFailure() { Failure? }
  }
}
