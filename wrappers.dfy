/** Optional values: a parsed number that may be NaN, a score that may be missing. */
module Wrappers {
  datatype Option<+T> = None | Some(value: T)
}
