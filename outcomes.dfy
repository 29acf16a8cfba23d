/** Option and Result: absent dictionary keys and calls that may raise. */
module Outcomes {

  /** A value that may be absent, as a Python dictionary key or an environment variable may be. */
  datatype Option<T> = None | Some(value: T) {

    /** The value, or `default` when absent: Python's `d.get(key, default)`. */
    function GetOr(default: T): T {
      match this
      case Some(v) => v
      case None => default
    }
  }

  /** The outcome of a call that either returns a value or raises with a message (`str(e)`). */
  datatype Result<T> = Ok(value: T) | Err(message: string)
}
