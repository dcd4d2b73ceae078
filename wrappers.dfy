/** Result types shared by the storage wrapper and the adapter. */
module Wrappers {

  /** A value that may be absent (a JavaScript `undefined`). */
  datatype Option<+T> = None | Some(value: T)

  /**
   * The settled state of one wrapped storage call: resolved with a value, or
   * rejected with the message of the error the platform reported.
   */
  datatype Result<+T> = Ok(value: T) | Err(message: string)
}
