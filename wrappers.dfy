/** Optional values and results with an error, used for PHP's nullable
    values and for the exceptions a call can raise. */
module Wrappers {

  datatype Option<+T> = None | Some(value: T)

  datatype Result<+T, +E> = Success(value: T) | Failure(error: E)
}
