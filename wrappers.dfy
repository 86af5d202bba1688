/** Optional values and the outcome of a call into the device/session provider. */
module Wrappers {

  /** A value that may be absent: JavaScript's `undefined` or `null`. */
  datatype Option<+T> = None | Some(value: T) {
    function GetOr(default: T): T {
      match this
      case Some(v) => v
      case None => default
    }
  }

  /** What a provider call (an awaited promise) ends with: it resolves with a value or rejects with a message. */
  datatype Outcome<+T> = Ok(value: T) | Fail(message: string)

  /** The unit value a provider call resolves with when it returns nothing of interest. */
  datatype Done = Done
}
