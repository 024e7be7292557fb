/** Python's `None`-or-value results. */
module Wrappers {

  datatype Option<+T> = None | Some(value: T) {

    /** The value, or `default` when there is none. */
    function GetOr(default: T): T {
      match this
      case Some(v) => v
      case None => default
    }
  }

  /** Python truthiness of an optional number: `None` and `0` are both falsy. */
  predicate Truthy(x: Option<real>) {
    x.Some? && x.value != 0.0
  }
}
