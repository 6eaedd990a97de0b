/** Option and Result: the model's stand-ins for Go's nil and for the (value, error) pairs
    that the client's functions return. */
module Wrappers {

  datatype Option<+T> = None | Some(value: T) {
    /** The value if present, otherwise `default`. */
    function GetOr(default: T): T {
      match this
      case Some(v) => v
      case None => default
    }
  }

  /** A Go `(value, err)` pair in which exactly one half is meaningful. */
  datatype Result<+R, +E> = Success(value: R) | Failure(error: E)
}
