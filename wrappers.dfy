/** Option and Result values used for PHP's null results and thrown exceptions. */
module Wrappers {

  datatype Option<+T> = None | Some(value: T)

  /** A call that either returns a value or throws an exception carrying `error`. */
  datatype Result<+R, +E> = Success(value: R) | Failure(error: E)
}
