/** Nullable values and error-or-value results, used in place of Java's
    `null` and of a thrown `ServerApiException`. */
module Wrappers {

  /** A Java reference that may be `null`. */
  datatype Option<+T> = None | Some(value: T)

  /** The outcome of a response projection: a value, or the error the
      command would throw. */
  datatype Result<+T, +E> = Success(value: T) | Failure(error: E)
}
