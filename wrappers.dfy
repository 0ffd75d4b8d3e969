/** Failure-carrying wrappers shared by every module of the model. */
module Wrappers {

  /** A value that may be absent (Python's `None`). */
  datatype Option<+T> = None | Some(value: T) {
    function GetOr(default: T): T {
      match this
      case Some(v) => v
      case None => default
    }
  }

  /** Either a computed value or the exception that Python would raise instead. */
  datatype Result<+T, +E> = Success(value: T) | Failure(error: E)
}
