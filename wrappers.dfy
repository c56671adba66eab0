/** The optional value used for JavaScript's `undefined`/`null` wherever the
    difference between "absent" and "empty" matters to the code. */
module Wrappers {

  datatype Option<+T> = None | Some(value: T) {

    /** The contained value, or `default` when there is none (JavaScript's `x ?? d`). */
    function GetOr(default: T): T {
      match this
      case Some(v) => v
      case None => default
    }
  }
}
