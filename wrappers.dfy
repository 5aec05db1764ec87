/** Optional values: the source's `field?: T` and its `undefined`. */
module Wrappers {
  datatype Option<+T> = None | Some(value: T)
}
