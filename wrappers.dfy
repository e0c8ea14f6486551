/** Optional values and error returns shared by the other modules. */
module Wrappers {

  datatype Option<+T> = None | Some(value: T)

  /** The value of a call that either returns normally or raises. */
  datatype Result<+R, +E> = Success(value: R) | Failure(error: E)
}
