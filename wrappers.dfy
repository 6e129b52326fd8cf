/** Optional values, used for the pointers of the driver that may be NULL. */
module Wrappers {
  datatype Option<+T> = None | Some(value: T)
}
