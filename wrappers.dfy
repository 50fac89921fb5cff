/** Optional values and fallible results, shared by every module. */
module Wrappers {

  /** A PHP value that may be `null` (or a place that may be unset). */
  datatype Option<+T> = None | Some(value: T) {
    function GetOr(default: T): T {
      match this
      case Some(v) => v
      case None => default
    }
  }

  /** A computation that either yields a value or throws an exception with a message. */
  datatype Result<+T> = Success(value: T) | Failure(error: string)
}
