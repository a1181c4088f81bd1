/** Optional values and results, standing for TypeScript's `T | null` /
    optional properties and for thrown errors. */
module Wrappers {

  datatype Option<+T> = None | Some(value: T)

  datatype Result<+T, +E> = Ok(value: T) | Err(error: E)
}
