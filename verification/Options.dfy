/** The failure-compatible datatypes the other modules share. */
module Options {

  /** A value the original may leave `undefined` or `null`. */
  datatype Option<+T> = None | Some(value: T) {
    function GetOr(default: T): T {
      match this
      case Some(v) => v
      case None => default
    }
  }
}
