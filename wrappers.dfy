/** Optional values and success-or-error results, the two shapes every module of the model uses. */
module Wrappers {

  /** A value that may be absent: JavaScript's `undefined`, `null` or `-1` sentinel. */
  datatype Option<+T> = None | Some(value: T)

  /** A result or the error the JavaScript code would throw instead. */
  datatype Result<+R, +E> = Success(value: R) | Failure(error: E)
}
