/** Optional values: None where Python would raise. */
module Wrappers {
  datatype Option<+T> = None | Some(value: T)
}
