/** Optional values and error results, for the source's `None`, NaN and raised HTTP errors. */
module Wrappers {

  /** A value that may be missing (Python `None`, a JSON `null`, a pandas NaN). */
  datatype Option<+T> = None | Some(value: T) {
    function GetOr(default: T): (r: T)
      ensures Some? ==> r == value
      ensures None? ==> r == default
    {
      match this
      case Some(v) => v
      case None => default
    }
  }

  /** The outcome of an operation that either succeeds or fails with an error. */
  datatype Result<+R, +E> = Ok(value: R) | Err(error: E)
}
