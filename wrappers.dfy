/** Option, Result and Outcome: the model's stand-ins for C# nullable values
    and for exceptions thrown by the source. */
module Wrappers {

  /** A C# `string?`-style value: absent (null) or present. */
  datatype Option<+T> = None | Some(value: T) {
    function GetOr(default: T): T {
      match this
      case Some(v) => v
      case None => default
    }
  }

  /** A computation that either produces a value or fails (throws). */
  datatype Result<+R, +E> = Success(value: R) | Failure(error: E)

  /** A computation that either completes or fails (throws), without a value. */
  datatype Outcome<+E> = Pass | Fail(error: E)
}
