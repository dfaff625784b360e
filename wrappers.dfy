/** Optional values and outcomes of calls that can fail (a network request, a JSON decode). */
module Wrappers {

  /** `undefined` / `null` in the source is `None`. */
  datatype Option<+T> = None | Some(value: T) {
    function GetOr(default: T): T {
      match this
      case Some(v) => v
      case None => default
    }
  }

  /** A settled promise: the resolved value, or the rejection message. */
  datatype Result<+T> = Success(value: T) | Failure(error: string)
}
