/** Option and Result: the shapes used for Python's "key may be absent" and "call may raise". */
module Wrappers {

  datatype Option<+T> = None | Some(value: T) {
    /** The value, or `default` when absent (Python's `dict.get(key, default)`). */
    function GetOr(default: T): T {
      match this
      case Some(v) => v
      case None => default
    }
  }

  /** The outcome of a call that may raise: a value, or the exception's message (`str(e)`). */
  datatype Result<+T> = Ok(value: T) | Err(message: string)
}
