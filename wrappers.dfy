/** The optional value used throughout the model for the source's `T | null`
    and `T | undefined` fields and for backend answers that may carry no data. */
module Wrappers {

  datatype Option<+T> = None | Some(value: T) {

    /** `x ?? d` / `x || d` for a value that is never falsy itself. */
    function GetOr(default: T): T {
      match this
      case Some(v) => v
      case None => default
    }
  }
}
