/** Optional values and success-or-failure results shared by the other modules. */
module Wrappers {

  /** A value that may be absent: JavaScript's `undefined`/`null` on the way in. */
  datatype Option<+T> = None | Some(value: T)

  /** The outcome of an operation that may throw. */
  datatype Result<+R, +E> = Success(value: R) | Failure(error: E)
}
