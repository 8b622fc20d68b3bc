/** Optional values and results shared by the modules of this model. */
module Wrappers {

  /** A value that may be absent (JavaScript `null`/`undefined`, a missing header). */
  datatype Option<T> = None | Some(value: T)

  /** The outcome of an operation that may fail with an error value (a raised exception). */
  datatype Result<T, E> = Success(value: T) | Failure(error: E)
}
