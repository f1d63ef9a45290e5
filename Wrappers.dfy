/** Optional values and results, for the source's `undefined`/`null` and its thrown errors. */
module Wrappers {

  datatype Option<+T> = None | Some(value: T) {
    /** The value, or `d` when absent: the source's `x ?? d`. */
    function GetOr(d: T): T {
      match this
      case Some(v) => v
      case None => d
    }
  }

  datatype Result<+T> = Ok(value: T) | Err(error: string)
}
