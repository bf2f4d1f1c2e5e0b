/** Option and Result values that stand for JavaScript's `null`/`undefined`
    and for a rejected promise or a thrown error. */
module Wrappers {

  datatype Option<+T> = None | Some(value: T) {
    /** The value, or `d` when absent (JavaScript's `x || d` on a missing value). */
    function GetOr(d: T): T {
      match this
      case Some(v) => v
      case None => d
    }
  }

  datatype Result<+T, +E> = Success(value: T) | Failure(error: E)
}
