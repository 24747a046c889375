/** Optional values, used for JavaScript's `undefined` and for callbacks that are not bound. */
module Wrappers {
  datatype Option<+T> = None | Some(value: T)
}
