/** Option type shared by every module: Go's nil pointers, Python's None and
    absent keys become None. */
module Wrappers {
  datatype Option<+T> = None | Some(value: T) {
    function GetOr(default: T): T {
      match this
      case Some(v) => v
      case None => default
    }
  }
}
