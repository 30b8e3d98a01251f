/** Optional values: the model's stand-in for TypeScript's `undefined`
    and `null` on an optional field. */
module Wrappers {

  datatype Option<+T> = None | Some(value: T)
}
