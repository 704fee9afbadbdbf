/** Option and Result, the failure-carrying values used throughout the model. */
module Wrappers {

  datatype Option<+T> = None | Some(value: T) {
    /** The value, or `default` when there is none, as `d.get(key, default)` answers. */
    function GetOr(default: T): T {
      match this
      case Some(v) => v
      case None => default
    }
  }

  /** A value or the message of the exception the source raises instead. */
  datatype Result<+R, +E> = Success(value: R) | Failure(error: E)
}
