/** Success/failure and presence/absence wrappers shared by every module. */
module Wrappers {

  datatype Option<+T> = None | Some(value: T)

  /** A handler outcome: a value, or the message of the exception it raises. */
  datatype Result<+T> = Success(value: T) | Failure(error: string)
}
