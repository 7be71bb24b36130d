/** Optional values and success-or-failure results, standing in for Go's
    nil pointers / nil errors and for its `(value, error)` return pairs. */
module Wrappers {

  datatype Option<+T> = None | Some(value: T)

  datatype Result<+R, +E> = Success(value: R) | Failure(error: E)
}
