/** Optional values and fallible results, the shapes of `undefined` and of
    thrown errors in the front end. */
module Wrappers {

  /** A value that may be absent (`undefined` / `null` on the JS side). */
  datatype Option<+T> = None | Some(value: T) {

    /** `x ?? d`: the value when present, otherwise the default. */
    function GetOr(default: T): T {
      match this
      case Some(v) => v
      case None => default
    }
  }

  /** The outcome of an operation that may throw. */
  datatype Result<+R, +E> = Success(value: R) | Failure(error: E)
}
