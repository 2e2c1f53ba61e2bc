/** Optional values and results with an error, used by both halves of the model. */
module Wrappers {

  /** A value that may be absent: Kotlin's `T?`, Python's `None`. */
  datatype Option<+T> = None | Some(value: T) {
    /** The value, or `default` when absent (Kotlin's `?:`). */
    function GetOr(default: T): T {
      match this
      case Some(v) => v
      case None => default
    }
  }

  /** A successful value or an error. */
  datatype Result<+T, +E> = Ok(value: T) | Err(error: E)
}
