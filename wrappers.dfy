/** Optional values (`undefined`/`null` in the client) and success-or-thrown results. */
module Wrappers {

  datatype Option<+T> = None | Some(value: T)

  datatype Result<+R, +E> = Success(value: R) | Failure(error: E)
}
