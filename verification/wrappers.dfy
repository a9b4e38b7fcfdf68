/** Optional values: `None` stands for JavaScript's `null`/`undefined`
    (a missing property, a failed lookup, an absent payload). */
module Wrappers {

  datatype Option<+T> = None | Some(value: T) {

    /** The value, or `default` when absent (JavaScript's `x ?? default`). */
    function GetOr(default: T): T {
      match this
      case Some(v) => v
      case None => default
    }
  }
}
