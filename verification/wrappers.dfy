/** Optional values and success/failure outcomes, standing in for JavaScript's
    `null`/`undefined` and for thrown errors. */
module Wrappers {

  /** A value that may be absent (`T | null` or an optional property). */
  datatype Option<+T> = None | Some(value: T)

  /** The outcome of an operation that either returns a value or throws. */
  datatype Result<+T, +E> = Success(value: T) | Failure(error: E)
}
