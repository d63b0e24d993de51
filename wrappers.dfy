/** Optional values and pass/fail outcomes, the Dafny counterparts of Swift's
    `T?` and of a `throws` function that returns nothing. */
module Wrappers {

  datatype Option<+T> = None | Some(value: T) {
    /** Swift's `x ?? default`. */
    function GetOr(default: T): T {
      match this
      case Some(v) => v
      case None => default
    }
  }

  datatype Outcome<+E> = Pass | Fail(error: E)
}
