/** A JavaScript value that may be missing (`undefined` / `null`). */
module Wrappers {

  datatype Option<T> = None | Some(value: T) {

    /** The value, or `default` when missing: the `x || default` idiom on a value that is never falsy itself. */
    function GetOr(default: T): T
    {
      match this
      case Some(v) => v
      case None => default
    }
  }
}
