/** Optional values and results, standing in for TypeScript's `T | null`,
    `T | undefined` and for operations that throw. */
module Wrappers {

  datatype Option<+T> = None | Some(value: T)

  datatype Result<+T, +E> = Success(value: T) | Failure(error: E)
}
