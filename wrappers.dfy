/** Optional values: the model's stand-in for Go's nil pointers, nil
    interfaces and nil errors. */
module Wrappers {

  datatype Option<+T> = None | Some(value: T) {

    /** The value, or `default` when there is none (Go's ranging over a nil
        slice behaves like ranging over an empty one). */
    function GetOr(default: T): T {
      match this
      case Some(v) => v
      case None => default
    }
  }
}
