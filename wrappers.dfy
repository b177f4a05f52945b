/** Option and Result, standing for Go's nilable pointers and (value, error) pairs. */
module Wrappers {

  datatype Option<+T> = None | Some(value: T)

  datatype Result<+R, +E> = Success(value: R) | Failure(error: E)

  /** An error value as the Go code passes it along; its text is never inspected. */
  datatype Error = Error(message: string)
}
