/** Optional values and results with an error, as the Go code expresses them
    with nil pointers and `(value, error)` pairs. */
module Wrappers {

  /** A value that may be absent (a Go pointer that may be nil). */
  datatype Option<+T> = None | Some(value: T) {

    /** The value, or `default` when absent. */
    function GetOr(default: T): T {
      match this
      case Some(v) => v
      case None => default
    }
  }

  /** A Go `(result, err)` pair where exactly one side is meaningful. */
  datatype Result<+T, +E> = Success(value: T) | Failure(error: E)
}
