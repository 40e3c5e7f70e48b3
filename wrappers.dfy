/** Optional values: JavaScript's `undefined` results are `None`. */
module Wrappers {
  datatype Option<+T> = None | Some(value: T)
}
