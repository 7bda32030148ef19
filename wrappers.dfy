/** Failure-carrying values standing for the source's thrown errors. */
module Wrappers {

  datatype Option<+T> = None | Some(value: T)

  /** A value, or the message of the error that was thrown instead. */
  datatype Result<+T> = Ok(value: T) | Err(error: string)

  /** Success without a value, or the message of the error that was thrown. */
  datatype Outcome = Pass | Fail(error: string)

  /**
   * The text a handler reads from a caught error, `err.message ? err.message : String(err)`:
   * its message, or "Error" (what `String` gives for an `Error` with no message).
   */
  function ThrownText(message: string): (r: string)
    ensures r != ""
    ensures message != "" ==> r == message
  {
    if message == "" then "Error" else message
  }
}
