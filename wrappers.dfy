/** Optional values and load outcomes shared by the model. */
module Wrappers {

  /** A value that may be absent: JavaScript's `null` and `undefined`. */
  datatype Option<T> = None | Some(value: T) {

    /** The value, or `default` when absent (the `x || default` idiom). */
    function GetOr(default: T): T {
      match this
      case Some(v) => v
      case None => default
    }
  }

  /** The outcome of an operation whose promise may reject. */
  datatype Result<T, E> = Success(value: T) | Failure(error: E)
}
