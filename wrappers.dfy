/** Wrappers shared by the parser modules. */
module Wrappers {

  /** A value that may be missing. */
  datatype Option<+T> = None | Some(value: T)

  /** The value a step produced, or the exception it raised (as a message). */
  datatype Result<+T> = Success(value: T) | Failure(error: string)

  /** A check that passes, or fails with the message of the failed assertion. */
  datatype Outcome = Pass | Fail(message: string)
}
