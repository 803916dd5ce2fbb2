/** Optional values and results used throughout the model. */
module Wrappers {

  /** A value that may be absent; `None` plays the part of JavaScript's `undefined`. */
  datatype Option<+T> = None | Some(value: T) {

    /** The wrapped value, or `default` when absent (a TypeScript default parameter). */
    function GetOr(default: T): T
    {
      match this
      case Some(v) => v
      case None => default
    }
  }

  /** Either a value or an error, standing for a resolved or a rejected promise. */
  datatype Result<+T, +E> = Success(value: T) | Failure(error: E)
}
