/** The optional-value datatype used throughout the model. */
module Wrappers {

  /** A value that may be absent, as a nil-able Go field. */
  datatype Option<+T> = None | Some(value: T) {

    /** The value, or `default` when there is none (lo.FromPtr with a zero value). */
    function GetOr(default: T): T {
      match this
      case Some(v) => v
      case None => default
    }
  }
}
