/** Kotlin's nullable values (`T?`) as an Option datatype. */
module Wrappers {

  datatype Option<+T> = None | Some(value: T) {

    /** The Kotlin elvis operator `this ?: default`. */
    function GetOr(default: T): T {
      match this
      case Some(v) => v
      case None => default
    }
  }
}
