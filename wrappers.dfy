/** Optional values: Python's `None` and the not-found result of a lookup. */
module Wrappers {
  datatype Option<+T> = None | Some(value: T)
}
