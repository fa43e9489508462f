/** Optional values: a dropped field resolves to None. */
module Wrappers {
  datatype Option<+T> = None | Some(value: T)
}
