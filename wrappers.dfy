/** Optional values: Python's `None` versus a present value. */
module Wrappers {

  datatype Option<+T> = None | Some(value: T) {

    /** The value, or `default` when absent (Python's `x or default` for non-zero `x`). */
    function GetOr(default: T): T {
      match this
      case Some(v) => v
      case None => default
    }
  }

  /** Python truthiness of an optional int: present and non-zero (`if parent_pid and ...`). */
  predicate Truthy(o: Option<int>) {
    o.Some? && o.value != 0
  }
}
