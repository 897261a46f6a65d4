/** Nullable values and exceptions as values: `Option` for a Java reference
    that may be null, `Result` for a call that may throw. */
module Wrappers {

  /** A value that may be absent; `None` plays the role of a Java `null`. */
  datatype Option<+T> = None | Some(value: T) {

    /** The wrapped value, or `default` when absent. */
    function GetOr(default: T): (r: T)
      ensures Some? ==> r == value
      ensures None? ==> r == default
    {
      match this
      case Some(v) => v
      case None => default
    }
  }

  /** Either a normal return value or the exception the operation throws. */
  datatype Result<+R, +E> = Success(value: R) | Failure(error: E)
}
