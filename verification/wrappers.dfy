/** The optional value used wherever the source can produce "nothing":
    a failed number parse (NaN) or the collapsed detail view (null). */
module Wrappers {

  datatype Option<+T> = None | Some(value: T) {

    /** Returns the value in Some, or the given default when None. */
    function GetOr(default: T): T {
      match this
      case Some(v) => v
      case None => default
    }
  }
}
