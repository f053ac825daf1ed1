/** Optional values, for lookups that may find nothing and for JavaScript's `undefined`/`null`. */
module Wrappers {

  datatype Option<+T> = None | Some(value: T) {

    /**
     * The wrapped value, or `default` when there is none: JavaScript's `x ?? default`.
     * With `default == ""` on a string it also agrees with `x || ''`, since an empty
     * value gives `""` either way.
     */
    function GetOr(default: T): T {
      match this
      case Some(v) => v
      case None => default
    }
  }
}
