/** Optional values, standing for TypeScript's `T | undefined`. */
module Wrappers {

  datatype Option<+T> = None | Some(value: T) {

    /** The value when present, `default` otherwise (the `??` operator). */
    function GetOr(default: T): T
    {
      match this
      case Some(v) => v
      case None => default
    }
  }
}
