/** The Option type used for JavaScript's `undefined`/`null` and for values
    that may be missing in a response. */
module Wrappers {

  datatype Option<+T> = None | Some(value: T) {

    /** `x ?? d` in the front end. */
    function GetOr(default: T): T {
      match this
      case Some(v) => v
      case None => default
    }
  }
}
