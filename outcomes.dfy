/** Small value wrappers shared by the modules of this project. */
module Outcomes {

  /** A value that may be absent: `null` / `undefined` in the modelled code. */
  datatype Option<+T> = None | Some(value: T)

  /** What one call to the database reports: no error, or an error with its message.
      Every table operation of the store takes one of these as an input, so that
      success and failure of the remote call are explicit. */
  datatype Outcome = Ok | Fail(message: string)
}
