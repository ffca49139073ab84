/** Optional values: the model's stand-in for `undefined` / `null`. */
module Wrappers {
  datatype Option<+T> = None | Some(value: T)
}
