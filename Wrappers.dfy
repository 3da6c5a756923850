/** Optional values: JavaScript's `null` / `undefined` / `NaN` stand-ins. */
module Wrappers {

  datatype Option<+T> = None | Some(value: T) {

    /** The supplied value if there is one, else `default`. */
    function GetOr(default: T): T {
      match this
      case Some(v) => v
      case None => default
    }
  }
}
