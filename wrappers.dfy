/** Failure-carrying values used for the outcomes of remote calls and for parsing. */
module Wrappers {

  datatype Option<+T> = None | Some(value: T)

  /** A call that yields a value or raises an error (the error's text). */
  datatype Result<+T, +E> = Ok(value: T) | Err(error: E)

  /** A call whose only observable outcome is success or an error. */
  datatype Outcome<+E> = Pass | Fail(error: E)
}
