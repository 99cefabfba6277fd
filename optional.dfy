/** A value that may be absent: JavaScript's `undefined` for a missing property or lookup. */
module Optional {

  datatype Option<T> = None | Some(value: T) {

    /** The value when present, otherwise the given default (JavaScript's `a !== undefined ? a : b`). */
    function GetOr(default: T): T {
      match this
      case Some(v) => v
      case None => default
    }
  }
}
