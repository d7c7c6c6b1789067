/** Optional values: a property of an options object that may or may not be set. */
module Wrappers {

  datatype Option<+T> = None | Some(value: T)
}
