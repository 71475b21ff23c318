/** Option, Result and Outcome: the values a rewrite step hands back, and the
    panics that abort macro expansion. */
module Wrappers {

  datatype Option<+T> = None | Some(value: T) {
    /** `Option::unwrap_or`. */
    function GetOr(default: T): T {
      match this
      case Some(v) => v
      case None => default
    }
  }

  /** A step that produces a value or aborts the expansion with `E`. */
  datatype Result<+R, +E> = Success(value: R) | Failure(error: E)

  /** A step that only changes state, or aborts the expansion with `E`. */
  datatype Outcome<+E> = Pass | Fail(error: E)
}
