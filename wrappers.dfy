/** Optional values (Java's nullable references) and results (Java's exceptions). */
module Wrappers {

  /** `None` stands for a Java `null`. */
  datatype Option<+T> = None | Some(value: T)

  /** `Failure` stands for an exception thrown instead of returning `value`. */
  datatype Result<+R, +E> = Success(value: R) | Failure(error: E)
}
