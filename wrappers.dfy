/** Optional values: JavaScript's `null` and `undefined` where the scanner tests for them. */
module Wrappers {

  datatype Option<+T> = None | Some(value: T)
}
