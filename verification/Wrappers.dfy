/** Optional values: the model of a nullable column, a missing row or an unreadable probe. */
module Wrappers {
  datatype Option<+T> = None | Some(value: T)
}
