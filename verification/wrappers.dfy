/** Optional values and error-or-value results, used where the source has
    `T | null`, `T | undefined`, an optional property, or a thrown error. */
module Wrappers {

  datatype Option<+T> = None | Some(value: T)

  datatype Result<+T, +E> = Success(value: T) | Failure(error: E)
}
