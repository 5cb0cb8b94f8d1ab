/** The optional values the application's JavaScript expresses with `null`/`undefined`. */
module Wrappers {

  /** A value that may be absent (`null` or `undefined` in the source). */
  datatype Option<+T> = None | Some(value: T) {

    /** `x || d` / `x ?? d` on an optional value: the value when present, otherwise `d`. */
    function GetOr(default: T): T {
      match this
      case Some(v) => v
      case None => default
    }
  }
}
