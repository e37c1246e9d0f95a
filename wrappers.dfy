/** Optional values: a missing dictionary key, a call that raised, a timestamp not yet set. */
module Wrappers {

  datatype Option<+T> = None | Some(value: T) {

    /** The value, or the given default when it is absent (Python's `dict.get(key, default)`). */
    function GetOr(default: T): T {
      match this
      case Some(v) => v
      case None => default
    }
  }
}
