/** Option, the usual failure-compatible wrapper for "a value or nothing"
    (Python's `None` where a function may return nothing). */
module Wrappers {
  datatype Option<+T> = None | Some(value: T) {
    function GetOr(default: T): T {
      match this
      case Some(v) => v
      case None => default
    }
  }
}
