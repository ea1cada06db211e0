/** The optional value a JavaScript field holds when it may be null or
    undefined. */
module Options {

  datatype Option<+T> = None | Some(value: T) {

    /** `x || fallback` for a value that is never falsy when present. */
    function GetOr(fallback: T): T {
      match this
      case Some(v) => v
      case None => fallback
    }
  }
}
