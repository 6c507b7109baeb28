/** Optional values and success-or-failure outcomes used by every other module. */
module Wrappers {

  datatype Option<+T> = None | Some(value: T) {
    /** The carried value, or `default` when there is none. */
    function GetOr(default: T): T {
      match this
      case Some(v) => v
      case None => default
    }
  }

  /** The outcome of a route handler: the JSON it answers with, or the error it reports. */
  datatype Result<+T, +E> = Ok(value: T) | Err(error: E)
}
