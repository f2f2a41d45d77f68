/** Optional values and fallible results shared by the whole model. */
module Wrappers {

  /** A value that may be absent: a missing header, a missing body field, a NULL column. */
  datatype Option<+T> = None | Some(value: T) {

    /** The value, or `default` when absent (the `x || default` idiom of the handler). */
    function GetOr(default: T): T {
      match this
      case Some(v) => v
      case None => default
    }
  }

  /** The outcome of one store call: rows, or the message the backend reported. */
  datatype Result<+T> = Ok(value: T) | Err(message: string)
}
