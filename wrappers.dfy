/** Optional values and success/failure results, as Swift's `Optional` and `Result`. */
module Wrappers {

  /** Swift's `T?`: `None` is `nil`. */
  datatype Option<+T> = None | Some(value: T)

  /** Swift's `Result<T, E>`, the argument shape of a result handler. */
  datatype Result<+T, +E> = Success(value: T) | Failure(error: E)
}
