/** Failure-carrying results used in place of the Python exceptions. */
module Wrappers {

  /** A value that may be absent (Python `None`). */
  datatype Option<+T> = None | Some(value: T) {
    function GetOr(default: T): T {
      match this
      case Some(v) => v
      case None => default
    }
  }

  /** A computed value, or the exception raised instead. */
  datatype Result<+T, +E> = Success(value: T) | Failure(error: E)

  /** Normal return of a procedure that returns nothing, or the exception raised instead. */
  datatype Outcome<+E> = Pass | Fail(error: E)
}
