/** Optional values: `undefined` / `null` in the application become `None`. */
module Wrappers {
  datatype Option<+T> = None | Some(value: T) {
    /** The value, or `default` when there is none (`x ?? default`). */
    function GetOr(default: T): T
    {
      if Some? then value else default
    }
  }
}
