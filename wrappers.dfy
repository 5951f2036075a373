/** The Option type used throughout the model for JavaScript values that may be `undefined`. */
module Wrappers {

  datatype Option<+T> = None | Some(value: T) {

    /** Returns the value, or `default` when there is none (JavaScript's `x ?? default`). */
    function GetOr(default: T): T {
      match this
      case Some(v) => v
      case None => default
    }
  }
}
