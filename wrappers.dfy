/** Optional values: JavaScript's `undefined` / `null` and absent lookups. */
module Wrappers {
  datatype Option<+T> = None | Some(value: T)
}
