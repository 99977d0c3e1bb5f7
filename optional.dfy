/** The optional values of the model: a JavaScript property that may be absent (`undefined`). */
module Optional {

  datatype Option<+T> = None | Some(value: T) {

    /** The value, or a default when absent, as `x || d` reads for a present value. */
    function GetOr(default: T): T {
      match this
      case Some(v) => v
      case None => default
    }
  }
}
