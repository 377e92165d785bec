/** Failure-carrying values used throughout the model in place of thrown
    JavaScript errors and `undefined`. */
module Wrappers {

  /** A value that may be absent (`undefined` in the source). */
  datatype Option<+T> = None | Some(value: T) {
    function GetOr(default: T): T {
      match this
      case Some(v) => v
      case None => default
    }
  }

  /** The result of a call that either returns a value or throws an error
      carrying a message. */
  datatype Result<+R, +E> = Success(value: R) | Failure(error: E)

  /** The result of a call that returns nothing or throws. */
  datatype Outcome<+E> = Pass | Fail(error: E)
}
