/** Optional values and results with an error, as returned by the analyses. */
module Wrappers {

  /** A value that may be absent (Python's `None`, or a missing dict key). */
  datatype Option<T> = None | Some(value: T) {
    function GetOr(default: T): T {
      match this
      case Some(v) => v
      case None => default
    }
  }

  /** The outcome of a handler that may raise: a value, or the error raised. */
  datatype Result<T, E> = Success(value: T) | Failure(error: E)
}
