/** Optional values (JavaScript's `null`/`undefined`) and the outcome of an
    operation that may throw. */
module Wrappers {

  datatype Option<+T> = None | Some(value: T) {
    /** `x ?? d` and, for values whose falsy cases are `null`/`undefined`, `x || d`. */
    function GetOr(default: T): T {
      match this
      case Some(v) => v
      case None => default
    }
  }

  datatype Result<+R, +E> = Success(value: R) | Failure(error: E)
}
