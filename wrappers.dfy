/** Optional values: JavaScript's `undefined` / `null` and "no entry". */
module Wrappers {

  datatype Option<T> = None | Some(value: T) {

    /** The value inside `Some`, or `default` when there is none. */
    function GetOr(default: T): T {
      match this
      case Some(v) => v
      case None => default
    }
  }
}
