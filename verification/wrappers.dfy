/** Wrappers for optional JSON keys and for operations that can fail. */
module Wrappers {

  /** A value that may be absent, as a key read with `dict.get` may be. */
  datatype Option<+T> = None | Some(value: T) {

    /** The stored value, or `default` when absent: `dict.get(key, default)`. */
    function GetOr(default: T): T {
      match this
      case Some(v) => v
      case None => default
    }
  }

  /** The outcome of an operation that either yields a value or raises an error. */
  datatype Result<+T, +E> = Success(value: T) | Failure(error: E)
}
