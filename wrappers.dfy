/** Optional values: JavaScript's `undefined` and React's `null` state values. */
module Wrappers {

  datatype Option<+T> = None | Some(value: T)
}
