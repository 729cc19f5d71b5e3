/** Option and Result, the two failure-carrying shapes the rest of the model uses. */
module Wrappers {

  datatype Option<+T> = None | Some(value: T)

  /** What a JavaScript promise settles with: a value, or the thing thrown. */
  datatype Result<+T, +E> = Success(value: T) | Failure(error: E)
}
