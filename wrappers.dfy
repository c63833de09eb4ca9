/** Optional values: JavaScript's `undefined`/`null` results and absent options. */
module Wrappers {
  datatype Option<+T> = None | Some(value: T)
}
