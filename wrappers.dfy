/** Option and Result, used for absent JSON fields, JavaScript NaN and error returns. */
module Wrappers {

  datatype Option<+T> = None | Some(value: T) {
    /** `x || d` and `x ?? d` on an optional value. */
    function GetOr(default: T): T {
      match this
      case Some(v) => v
      case None => default
    }
  }

  datatype Result<+R, +E> = Success(value: R) | Failure(error: E)
}
