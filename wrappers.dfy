/** Optional values: the model's stand-in for JavaScript's `undefined` and `null`. */
module Wrappers {

  datatype Option<+T> = None | Some(value: T) {

    /** The value, or `default` when absent (the `?? default` and parameter-default idiom). */
    function GetOr(default: T): T {
      match this
      case Some(v) => v
      case None => default
    }
  }
}
