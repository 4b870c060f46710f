/** A value that may be missing: `undefined`, `null`, or a number that the
    source treats as falsy and replaces by a default. */
module Wrappers {

  datatype Option<+T> = None | Some(value: T) {

    /** The wrapped value, or `default` when there is none. */
    function GetOr(default: T): T
    {
      match this
      case Some(v) => v
      case None => default
    }
  }
}
