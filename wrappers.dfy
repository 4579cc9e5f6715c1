/** Optional values: a DOM lookup that may find no element, a parse that may fail. */
module Wrappers {
  datatype Option<+T> = None | Some(value: T)
}
