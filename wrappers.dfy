/** Optional values, for configuration fields that the source may leave unset. */
module Wrappers {
  datatype Option<+T> = None | Some(value: T)
}
