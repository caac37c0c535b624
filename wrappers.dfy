/** Optional values: a JavaScript value that may be `undefined`, `null` or of an unexpected runtime type. */
module Wrappers {

  datatype Option<+T> = None | Some(value: T) {

    /** The value, or `default` when there is none (JavaScript default parameters). */
    function GetOr(default: T): T {
      match this
      case Some(v) => v
      case None => default
    }
  }
}
