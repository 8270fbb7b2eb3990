/** Optional values: a JSON field that may be absent, a storage key that may be unset. */
module Wrappers {
  datatype Option<+T> = None | Some(value: T)
}
