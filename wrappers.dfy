/** Optional values and error results, used wherever the source has `undefined`/`null` or throws. */
module Wrappers {

  /** `undefined` / `null` in the source is `None`. */
  datatype Option<+T> = None | Some(value: T)

  /** A computation that either yields a value or fails with an error (a thrown `Error` in the source). */
  datatype Result<+R, +E> = Success(value: R) | Failure(error: E)
}
