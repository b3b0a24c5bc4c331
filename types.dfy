/** Optional values and success/failure results, shared by the online-game modules. */
module Types {

  /** A value that may be absent: Kotlin's nullable types (`Player?`, `String?`). */
  datatype Option<+T> = None | Some(value: T)

  /** Kotlin's `Result<T>`: either a value or the error that stopped the operation. */
  datatype Result<+T, +E> = Success(value: T) | Failure(error: E)
}
