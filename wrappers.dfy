/** Optional values and results with an error, shared by every server module. */
module Wrappers {

  /** A value that may be absent (JavaScript's `undefined`). */
  datatype Option<+T> = None | Some(value: T) {

    /** The value, or `default` when absent (a JavaScript destructuring default). */
    function GetOr(default: T): T {
      match this
      case Some(v) => v
      case None => default
    }
  }

  /** The outcome of a handler: a result or the error it throws. */
  datatype Result<+R, +E> = Success(value: R) | Failure(error: E)
}
