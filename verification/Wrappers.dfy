/** Optional values, for the source's nil pointers and `value, ok` results, and bytes. */
module Wrappers {
  datatype Option<+T> = None | Some(value: T)

  newtype byte = b: int | 0 <= b < 256
}
