/** Optional values, used for the nullable fields and the falsy checks of the source. */
module Wrappers {
  datatype Option<+T> = None | Some(value: T)
}
