/** Optional values and two-way results, used wherever the JavaScript source
    has `undefined`/`null` or throws. */
module Wrappers {

  /** A value that may be absent (`undefined` or `null` in the source). */
  datatype Option<+T> = None | Some(value: T)

  /** Either a value or the message of the error the source throws. */
  datatype Result<+R, +E> = Success(value: R) | Failure(error: E)
}
