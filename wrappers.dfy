/** Optional values, used wherever the source reads a possibly-missing
    property (`undefined` in JavaScript, `None` or a missing key in Python). */
module Wrappers {

  datatype Option<+T> = None | Some(value: T) {

    /** Returns the value if present, otherwise the given default. */
    function GetOr(default: T): T {
      match this
      case Some(v) => v
      case None => default
    }
  }
}
