/** Optional values (the source's `T | null` and optional fields) and
    results (a value or a thrown error). */
module Wrappers {

  datatype Option<+T> = None | Some(value: T)

  datatype Result<+T, +E> = Success(value: T) | Failure(error: E)
}
