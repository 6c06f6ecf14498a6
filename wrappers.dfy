/** Optional values: an element that may be missing, a scan that may find nothing. */
module Wrappers {

  datatype Option<+T> = None | Some(value: T)
}
