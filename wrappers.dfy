/** Optional values: a Python dictionary key that may be missing, or an index that may not exist. */
module Wrappers {
  datatype Option<+T> = None | Some(value: T) {
    /** Python's `d.get(key, default)`. */
    function GetOr(default: T): T {
      match this
      case Some(v) => v
      case None => default
    }
  }
}
