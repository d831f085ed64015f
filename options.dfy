/** The conventional optional value, used for JavaScript's `null`/`undefined` fields and
    for a `.single()` query that finds no unique row. */
module Options {

  datatype Option<+T> = None | Some(value: T) {

    /** The value held, or `default` when there is none (JavaScript's `x ?? default`). */
    function GetOr(default: T): T {
      match this
      case Some(v) => v
      case None => default
    }
  }
}
