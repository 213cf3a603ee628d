/** Option and Result: the typed stand-ins for Python's None/missing keys and for exceptions. */
module Wrappers {

  /** A value that may be absent (a missing dictionary key, `None`, `undefined`). */
  datatype Option<+T> = None | Some(value: T) {
    /** The value, or `default` when absent (Python's `d.get(k, default)`). */
    function GetOr(default: T): T {
      match this
      case Some(v) => v
      case None => default
    }
  }

  /** A computation that either produced a value or raised an error carrying a message. */
  datatype Result<+T, +E> = Ok(value: T) | Err(error: E)
}
