// Optional values, shared by every module: the source's `undefined`, `null`,
// `None` and missing dictionary keys.
module Wrappers {
  datatype Option<T> = None | Some(value: T) {
    function GetOr(default: T): T {
      if Some? then value else default
    }
  }
}
