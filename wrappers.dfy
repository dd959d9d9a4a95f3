/** Optional values, used for "maybe a confirmation" and "maybe a message". */
module Wrappers {
  datatype Option<+T> = None | Some(value: T)
}
