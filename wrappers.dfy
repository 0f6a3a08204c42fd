/** Optional values, for the results the source signals by raising. */
module Wrappers {
  datatype Option<+T> = None | Some(value: T)
}
