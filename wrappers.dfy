/** Optional values: `None` stands for JavaScript's `undefined` (a missing property or a missing match). */
module Wrappers {

  datatype Option<+T> = None | Some(value: T)
}
