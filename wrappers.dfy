/** Optional values: the model's stand-in for TypeScript's `T | null` and
    `undefined`, and for C#'s `FirstOrDefault` returning `null`. */
module Wrappers {

  datatype Option<+T> = None | Some(value: T)
}
