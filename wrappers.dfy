/** Optional values and results with an error, used for the source's `null`,
    `undefined` and rejected operations. */
module Wrappers {

  datatype Option<+T> = None | Some(value: T)

  datatype Result<+T, +E> = Success(value: T) | Failure(error: E)
}
