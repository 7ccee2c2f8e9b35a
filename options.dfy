/** The optional value used wherever the dashboard reads a key that may be
    missing (`obj[key]` giving `undefined`) or a number that may not parse. */
module Options {

  datatype Option<+T> = None | Some(value: T) {

    /** The value, or `default` when there is none (JavaScript's `x ?? d`). */
    function GetOr(default: T): T {
      match this
      case Some(v) => v
      case None => default
    }
  }
}
