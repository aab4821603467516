/** Optional values and success/failure results, for the places where the
    SDK returns `undefined` or throws. */
module Wrappers {

  /** A value that may be absent (JavaScript's `undefined`). */
  datatype Option<+T> = None | Some(value: T)

  /** The outcome of an operation that may fail with an error of type `E`
      (a thrown `Error`). */
  datatype Result<+R, +E> = Success(value: R) | Failure(error: E)
}
