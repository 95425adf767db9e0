/** Option and Result: Go's `(value, ok)` and `(value, error)` returns. */
module Wrappers {

  datatype Option<T> = None | Some(value: T)

  datatype Result<T, E> = Success(value: T) | Failure(error: E)
}
