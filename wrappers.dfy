/** The optional-value wrapper used across the model: `None` stands for JavaScript's
    `undefined` or `null` field, `Some(v)` for a present one. */
module Wrappers {

  datatype Option<+T> = None | Some(value: T) {

    /** The wrapped value, or `default` when absent (JavaScript's `x ?? default`). */
    function GetOr(default: T): T {
      match this
      case Some(v) => v
      case None => default
    }
  }
}
