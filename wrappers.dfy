/**
 * The optional value used wherever the dashboard holds `null`, `undefined` or a missing
 * key, and the result of an operation that may throw.
 */
module Wrappers {

  datatype Option<+T> = None | Some(value: T) {

    /** The value, or `default` when absent (JavaScript's `x || default` for a present, truthy x). */
    function GetOr(default: T): T {
      match this
      case Some(v) => v
      case None => default
    }
  }

  /** A value, or the error an operation threw or its promise rejected with. */
  datatype Result<+T, +E> = Ok(value: T) | Err(error: E)
}
