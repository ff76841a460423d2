/** The optional value used wherever the modelled program either produces a
    value or falls back (a failed parse, a regex that does not match). */
module Options {

  datatype Option<+T> = None | Some(value: T) {

    /** The wrapped value, or `default` when there is none. */
    function GetOr(default: T): T {
      match this
      case Some(v) => v
      case None => default
    }
  }
}
