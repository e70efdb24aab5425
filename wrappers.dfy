/** Optional values and results of operations that may raise. */
module Wrappers {

  /** Python's `None` or a value. */
  datatype Option<+T> = None | Some(value: T) {
    function GetOr(default: T): T {
      match this
      case Some(v) => v
      case None => default
    }
  }

  /** The outcome of a call that may raise: `Raised` carries `str(e)` of the exception. */
  datatype Fallible<+T> = Ok(value: T) | Raised(msg: string)
}
