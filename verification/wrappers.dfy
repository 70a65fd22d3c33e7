/** Optional values and results with an error, standing in for Java's `null` returns and for
    the exception a store lookup throws. */
module Wrappers {

  /** A value that may be missing: `None` plays the part of a Java `null`. */
  datatype Option<+T> = None | Some(value: T) {

    /** The encapsulated value, or `default` when there is none. */
    function GetOr(default: T): T {
      match this
      case Some(v) => v
      case None => default
    }
  }

  /** Either a value or the error that prevented computing it. */
  datatype Result<+R, +E> = Success(value: R) | Failure(error: E)
}
