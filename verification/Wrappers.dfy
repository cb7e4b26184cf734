/** Optional values, used where the C code has a null pointer or a "no such thing" return. */
module Wrappers {
  datatype Option<+T> = None | Some(value: T)
}
