/** Optional values (TypeScript's `T | undefined`) and results of operations
    that can fail (a thrown `Error` in the source). */
module Wrappers {

  datatype Option<+T> = None | Some(value: T) {
    /** `x ?? fallback` */
    function GetOr(fallback: T): T {
      match this
      case Some(v) => v
      case None => fallback
    }
  }

  datatype Result<+R, +E> = Ok(value: R) | Err(error: E)
}
