/** Optional values and results with an error, used for Go's `(value, ok)` and `(value, error)` returns. */
module Wrappers {

  /** A value that may be absent, like the `ok == false` case of a Go type assertion. */
  datatype Option<+T> = None | Some(value: T)

  /** A value or the error that prevented it, like a Go `(value, error)` pair. */
  datatype Result<+R, +E> = Success(value: R) | Failure(error: E)
}
