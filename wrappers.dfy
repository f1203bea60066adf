/** Optional values: JavaScript's `undefined` result of a failed lookup is `None`. */
module Wrappers {
  datatype Option<+T> = None | Some(value: T)
}
