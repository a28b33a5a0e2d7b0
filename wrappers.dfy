/** Optional values: `null`/`undefined` in the dashboard's records, and NaN
    where a sum of parsed numbers stops being a number. */
module Wrappers {

  datatype Option<+T> = None | Some(value: T) {

    /** The value, or `default` when there is none (JavaScript's `x || default`
        for a value that is either missing or truthy). */
    function GetOr(default: T): T {
      match this
      case Some(v) => v
      case None => default
    }
  }
}
