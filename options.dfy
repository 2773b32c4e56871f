/** The optional value used wherever the program has an `Option`, a lookup that may miss,
    or a parse that may fail. */
module Options {

  datatype Option<+T> = None | Some(value: T) {

    /** The wrapped value, or `default` when there is none (Rust's `unwrap_or`). */
    function GetOr(default: T): T {
      match this
      case Some(v) => v
      case None => default
    }
  }
}
