/** A value that may be missing: an optional field, a key absent from
    storage, a string that does not parse. */
module Wrappers {
  datatype Option<T> = None | Some(value: T) {
    /** `x || d` / `x ?? d` on an optional field: the value, or `d` when absent. */
    function UnwrapOr(d: T): T {
      if Some? then value else d
    }
  }
}
