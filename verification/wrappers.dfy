/** Optional values: JavaScript's `undefined`/`null` or "not found". */
module Wrappers {
  datatype Option<+T> = None | Some(value: T)
}
