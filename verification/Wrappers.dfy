/** Optional values, for nil pointers and failed look-ups. */
module Wrappers {

  datatype Option<+T> = None | Some(value: T)
}
