/** Optional values and success-or-error results, used for Go's nil pointers
    and for Go's (value, error) return pairs. */
module Wrappers {

  datatype Option<T> = None | Some(value: T)

  datatype Result<T, E> = Success(value: T) | Failure(error: E)
}
