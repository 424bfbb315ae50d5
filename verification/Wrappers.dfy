/** Optional and fallible values, in place of Go's `(value, ok)` and `(value, error)` pairs. */
module Wrappers {
  datatype Option<+T> = None | Some(value: T) {
    function GetOr(default: T): T {
      if Some? then value else default
    }
  }

  datatype Result<+T> = Ok(value: T) | Err(error: string)
}
