/** Optional values and error-carrying results, used where the Go code returns
    a nil result or a non-nil error. */
module Wrappers {

  datatype Option<+T> = None | Some(value: T)

  datatype Result<+T, +E> = Success(value: T) | Failure(error: E)
}
