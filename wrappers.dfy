/** Optional values and outcomes that may fail, shared by the other modules. */
module Wrappers {

  /** A value that may be absent (a missing JSON field, `undefined`, `null`). */
  datatype Option<+T> = None | Some(value: T)

  /** The outcome of a step that may throw: the value, or the thrown error's message. */
  datatype Result<+T, +E> = Success(value: T) | Failure(error: E)
}
