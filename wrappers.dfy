/** Failure-compatible wrappers used for every read that can fail. */
module Wrappers {

  /** A value that may be absent (JavaScript `null`/`undefined`). */
  datatype Option<+T> = None | Some(value: T) {
    function GetOr(default: T): T {
      match this
      case Some(v) => v
      case None => default
    }
  }

  /** The outcome of a call that may throw. */
  datatype Result<+R, +E> = Success(value: R) | Failure(error: E) {
    /** The value, or `default` when the call failed (a `catch` returning a fallback). */
    function GetOrValue(default: R): R {
      match this
      case Success(v) => v
      case Failure(_) => default
    }
  }
}
