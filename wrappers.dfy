/** Optional values, used for "an alert may or may not be raised" and for a
    checked multiplication that may overflow. */
module Wrappers {
  datatype Option<+T> = None | Some(value: T)
}
