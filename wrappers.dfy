/** Option and Result, used for JavaScript's `undefined` and for calls that throw. */
module Wrappers {

  /** A value that may be absent (`undefined` or `null` in the handler's JSON). */
  datatype Option<+T> = None | Some(value: T) {

    /** The wrapped value, or `default` when absent. */
    function GetOr(default: T): T {
      match this
      case Some(v) => v
      case None => default
    }
  }

  /** The outcome of an awaited call: its value, or the error it throws. */
  datatype Result<+T, +E> = Ok(value: T) | Err(error: E)
}
