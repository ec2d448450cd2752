/** A value that may be absent: `undefined` or `null` on the JavaScript
    side. */
module Wrappers {

  datatype Option<+T> = None | Some(value: T) {

    /** `x ?? fallback`. */
    function GetOr(fallback: T): T
    {
      match this
      case Some(v) => v
      case None => fallback
    }
  }
}
