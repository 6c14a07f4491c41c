/** Option and Result values used for Python's None and for raised exceptions. */
module Wrappers {

  datatype Option<+T> = None | Some(value: T)

  /** A computation that either returns a value or raises an error with a message. */
  datatype Result<+T> = Success(value: T) | Failure(error: string)
}
