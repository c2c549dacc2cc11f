/** Optional values and handler results, shared by the rest of the model:
    Python's `None` and the request errors of the web handlers. */
module Wrappers {

  /** A value that may be missing (Python's `None`, or an absent JSON field). */
  datatype Option<+T> = None | Some(value: T) {

    /** The wrapped value, or `default` when it is missing (`dict.get(key, default)`). */
    function GetOr(default: T): (r: T)
      ensures Some? ==> r == value
      ensures None? ==> r == default
    {
      match this
      case Some(v) => v
      case None => default
    }
  }

  /** The outcome of a handler that can reject its request. */
  datatype Result<+R, +E> = Success(value: R) | Failure(error: E)
}
