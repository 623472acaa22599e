/** Optional values and results with an error, as used throughout the lottery model. */
module Wrappers {

  /** `None` stands for a value that is absent (for a parsed number: NaN). */
  datatype Option<+T> = None | Some(value: T)

  /** The outcome of a validator: the accepted value, or the error it throws. */
  datatype Result<+T, +E> = Success(value: T) | Failure(error: E)
}
