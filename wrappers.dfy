/** Optional values and error-carrying results shared by all modules. */
module Wrappers {

  datatype Option<+T> = None | Some(value: T) {
    function GetOr(default: T): T {
      match this
      case Some(v) => v
      case None => default
    }
  }

  /** An HTTP-style outcome: a value, or the status code the handler answers with. */
  datatype Result<+R> = Ok(value: R) | Err(status: int)
}
