/** Option and Result, the stock failure-carrying datatypes used throughout the model. */
module Wrappers {

  /** `None` stands for PHP's `false`/`null` "no value" returns. */
  datatype Option<+T> = None | Some(value: T)

  /** `Failure` stands for an exception thrown by the PHP code. */
  datatype Result<+T, +E> = Success(value: T) | Failure(error: E)
}
