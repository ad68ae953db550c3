/** Optional values and results with an error, as used by both versions of the engine. */
module Wrappers {

  /** A value that may be missing (the C NULL pointer, the Python -1 placeholder). */
  datatype Option<+T> = None | Some(value: T)

  /** The outcome of an operation that can fail. */
  datatype Result<+T, +E> = Success(value: T) | Failure(error: E)
}
