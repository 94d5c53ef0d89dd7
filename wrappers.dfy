/** Optional values: the model's stand-in for Python's `None`. */
module Wrappers {

  datatype Option<+T> = None | Some(value: T) {

    /**
     * The wrapped value, or `default` when there is none: `dict.get(key, default)`
     * for a lookup that yields `Some` exactly when the key is present.
     */
    function GetOr(default: T): T {
      match this
      case Some(v) => v
      case None => default
    }
  }
}
