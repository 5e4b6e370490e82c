/** Optional values and results with an error message. */
module Wrappers {

  datatype Option<+T> = None | Some(value: T)

  /** A value, or the message of the error that was thrown or returned. */
  datatype Result<+T> = Ok(value: T) | Err(error: string)
}
