/** Option and Result datatypes shared by the other modules. */
module Wrappers {

  /** A value that may be absent, as returned by a lookup that can miss. */
  datatype Option<T> = None | Some(value: T)

  /** Either a value or the message of the error that was thrown instead. */
  datatype Result<T> = Success(value: T) | Failure(message: string)
}
