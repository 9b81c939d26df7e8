/** Optional values and success/failure results shared by the calendar model. */
module Wrappers {

  /** A value that may be missing (`undefined` or `null` on the JavaScript side). */
  datatype Option<+T> = None | Some(value: T) {
    function GetOr(default: T): T {
      match this
      case Some(v) => v
      case None => default
    }
  }

  /** The outcome of a step that either succeeds with a value or throws an error. */
  datatype Result<+R, +E> = Success(value: R) | Failure(error: E)
}
