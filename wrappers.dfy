/** Optional values and success/failure outcomes, shared by every layer of the model. */
module Wrappers {

  /** A value that may be absent: Kotlin's nullable `T?`. */
  datatype Option<+T> = None | Some(value: T)

  /** Kotlin's `Result<T>`: a success payload or a failure. */
  datatype Result<+T, +E> = Success(value: T) | Failure(error: E)
}
