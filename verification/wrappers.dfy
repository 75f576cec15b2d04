/** Option, Result and Outcome: the model's stand-ins for Python's `None`
    and for exceptions raised across a call. */
module Wrappers {

  datatype Option<+T> = None | Some(value: T) {
    /** `x if x is not None else default` */
    function GetOr(default: T): T {
      match this
      case Some(v) => v
      case None => default
    }
  }

  /** A value, or the exception that was raised instead of returning one. */
  datatype Result<+R, +E> = Success(value: R) | Failure(error: E)

  /** Completion without a value, or the exception raised. */
  datatype Outcome<+E> = Pass | Fail(error: E)
}
