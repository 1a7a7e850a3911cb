/** Optional values and results with an error, as JavaScript code expresses them
    with `undefined` and with a thrown exception. */
module Wrappers {

  /** `None` stands for a value that is `undefined` or `null`. */
  datatype Option<+T> = None | Some(value: T)

  /** `Failure` stands for an exception thrown with the given message. */
  datatype Result<+R, +E> = Success(value: R) | Failure(error: E)
}
