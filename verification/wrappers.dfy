/** The optional-value type used for JavaScript's `undefined`-able props and records. */
module Wrappers {

  /** `None` stands for `undefined`; `Some(v)` for a defined value. */
  datatype Option<+T> = None | Some(value: T) {

    /** The value, or `default` when undefined (the `??` operator). */
    function GetOr(default: T): T {
      match this
      case Some(v) => v
      case None => default
    }
  }
}
