/** Option and Result values standing in for Go's nil pointers and (value, error) pairs. */
module Wrappers {

  /** A Go pointer field that may be nil. */
  datatype Option<+T> = None | Some(value: T) {
    /** The pointed-to value, or `default` when the pointer is nil. */
    function GetOr(default: T): T {
      match this
      case Some(v) => v
      case None => default
    }
  }

  /** A Go `(T, error)` return; the error is kept as the text of `err.Error()`. */
  datatype Result<+T> = Ok(value: T) | Err(error: string)
}
