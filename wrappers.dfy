/** Optional values and results, used wherever the Go code returns a value together with an `error`. */
module Wrappers {

  datatype Option<T> = None | Some(value: T) {
    function GetOr(default: T): (v: T) {
      match this
      case Some(v) => v
      case None => default
    }
  }
}
