/** Optional values: a JavaScript field that may be missing, or a reference that may be null. */
module Wrappers {

  datatype Option<+T> = None | Some(value: T)
}
