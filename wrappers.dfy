/** Optional values: JavaScript's `undefined`/`null` and Python's `None` in the model. */
module Wrappers {

  datatype Option<+T> = None | Some(value: T) {

    /** The value, or a default when absent (JavaScript `x ?? d`). */
    function GetOr(default: T): T {
      match this
      case Some(v) => v
      case None => default
    }
  }
}
