/** Option and Result, used for Go's nil-able values and (value, error) pairs. */
module Wrappers {

  datatype Option<+T> = None | Some(value: T)

  datatype Result<+R, +E> = Success(value: R) | Failure(error: E)

  /** An error as the model sees it: the text that Go's `err.Error()` returns. */
  type Error = string
}
