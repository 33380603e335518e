/** Option and Result, the two failure-carrying shapes the rest of the model returns. */
module Wrappers {

  /** `None` stands for Python's `None` (or a pandas NA value). */
  datatype Option<+T> = None | Some(value: T)

  /** The outcome of an operation that either produces a value or reports an error. */
  datatype Result<+R, +E> = Success(value: R) | Failure(error: E)
}
