/** The optional-value datatype used throughout the model (a JavaScript
    `null`/`undefined` or a missing field is `None`). */
module Wrappers {

  datatype Option<+T> = None | Some(value: T) {

    /** Returns the value held in Some or the given default when None. */
    function GetOr(default: T): T {
      match this
      case Some(v) => v
      case None => default
    }
  }
}
