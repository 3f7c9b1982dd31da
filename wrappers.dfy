/** Optional values and JSON request fields. */
module Wrappers {

  datatype Option<+T> = None | Some(value: T) {
    function GetOr(default: T): T {
      match this
      case Some(v) => v
      case None => default
    }
  }

  /**
   * One field of a parsed JSON body: the key is missing, its value is `null`, or it
   * holds a value. Several schemas treat a missing key and an explicit `null` differently.
   */
  datatype Field<+T> = Absent | Null | Present(value: T) {
    /** `field ?? fallback` in the source: both `null` and a missing key fall back. */
    function OrElse(fallback: T): T {
      if Present? then value else fallback
    }

    function ToOption(): Option<T> {
      if Present? then Some(value) else None
    }
  }

  /** A route's answer: a value, or an HTTP error status with its message. */
  datatype Reply<+T> = Ok(value: T) | Error(status: nat, message: string)
}
