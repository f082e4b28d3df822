/** Optional values and results, used for JavaScript's `undefined`/`null` and for thrown errors. */
module Wrappers {

  datatype Option<+T> = None | Some(value: T) {
    function GetOr(default: T): T {
      match this
      case Some(v) => v
      case None => default
    }
  }

  /** A computation that either returns a value or throws/aborts with an error. */
  datatype Result<+T, +E> = Ok(value: T) | Err(error: E)
}
