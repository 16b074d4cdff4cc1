/** The optional-value type used wherever the source returns `None`, a missing key or an error. */
module Wrappers {

  datatype Option<+T> = None | Some(value: T) {

    /** The held value, or `default` for None (Python's `d.get(key, default)`). */
    function GetOr(default: T): T {
      match this
      case Some(v) => v
      case None => default
    }
  }
}
