/** Optional values: a field or identity that may be absent (JavaScript's null/undefined). */
module Wrappers {
  datatype Option<+T> = None | Some(value: T) {
    /** The value, or `default` when absent (`x || default` for values that are never falsy otherwise). */
    function GetOr(default: T): T {
      match this
      case Some(v) => v
      case None => default
    }
  }
}
