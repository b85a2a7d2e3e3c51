/** Optional values and success-or-failure results, used for Python's absent keys and caught exceptions. */
module Wrappers {

  /** A value that may be absent: an optional key of a Python dict, or a nullable column. */
  datatype Option<+T> = None | Some(value: T) {

    /** The value if present, else `default` (Python's `dict.get(key, default)`). */
    function GetOr(default: T): T {
      match this
      case Some(v) => v
      case None => default
    }
  }

  /** The outcome of a call that either returns a value or raises; `error` is the exception's text. */
  datatype Result<+R> = Success(value: R) | Failure(error: string)
}
