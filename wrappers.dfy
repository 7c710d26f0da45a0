/** Optional values: the model's stand-in for JavaScript's `undefined`
    and `null` fields. */
module Wrappers {

  datatype Option<+T> = None | Some(value: T)
}
