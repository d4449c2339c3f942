/** Option and Result, the shapes of `T | undefined` and of a call that may throw. */
module Wrappers {

  datatype Option<T> = None | Some(value: T) {
    /** The value, or `d` when absent (JavaScript's `x ?? d` on a missing field). */
    function GetOr(d: T): T {
      match this
      case Some(v) => v
      case None => d
    }
  }

  datatype Result<T, E> = Ok(value: T) | Err(error: E)
}
