/** The absent-or-present value used wherever the server returns `None`. */
module Optional {
  datatype Option<+T> = None | Some(value: T) {
    /** The value, or `fallback` when absent. */
    function GetOr(fallback: T): T {
      match this
      case Some(v) => v
      case None => fallback
    }
  }
}
