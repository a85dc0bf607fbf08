/** Optional values: `undefined`/`null` and absent fields of the JavaScript source. */
module Wrappers {

  datatype Option<+T> = None | Some(value: T)
}
