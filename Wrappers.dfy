/** Optional values and results, used wherever the JavaScript source has
    `null`/`undefined` or a thrown exception. */
module Wrappers {

  datatype Option<+T> = None | Some(value: T)

  datatype Result<+T, +E> = Success(value: T) | Failure(error: E)
}
