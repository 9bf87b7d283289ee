/** Optional values: the model's counterpart of TypeScript's `undefined`
    for optional fields and failed lookups. */
module Wrappers {

  datatype Option<+T> = None | Some(value: T)
}
