/** Optional values and results with an error message. */
module Wrappers {

  /** A value that may be absent, such as an event field that is `undefined`. */
  datatype Option<+T> = None | Some(value: T)

  /** The outcome of a step that may throw; `Failure` carries the error's message. */
  datatype Result<+T, +E> = Success(value: T) | Failure(error: E)
}
