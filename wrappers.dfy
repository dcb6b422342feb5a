/** Optional values and success/failure results, standing for TypeScript's
    `T | null` / `T | undefined` and for promises that resolve or reject. */
module Wrappers {

  datatype Option<+T> = None | Some(value: T)

  datatype Result<+R, +E> = Success(value: R) | Failure(error: E)
}
