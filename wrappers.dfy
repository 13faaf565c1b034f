/** Option, the model's stand-in for a JavaScript value that may be
    `undefined`/`null` and for an SQL column that may be NULL. */
module Wrappers {

  datatype Option<+T> = None | Some(value: T) {

    /** The value, or `default` when absent (JavaScript destructuring
        defaults and SQL COALESCE both read this way). */
    function GetOr(default: T): T {
      match this
      case Some(v) => v
      case None => default
    }
  }

  /** SQL `COALESCE(a, b)`: the first non-NULL of the two. */
  function Coalesce<T>(a: Option<T>, b: Option<T>): Option<T> {
    if a.Some? then a else b
  }
}
