/** Optional values, and what a service call returns. */
module Wrappers {

  datatype Option<+T> = None | Some(value: T)

  /** A service call returns a value, or throws and leaves every table as it was. */
  datatype Result<+T> = Ok(value: T) | Err(error: Failure)

  datatype Failure = NotFound | BadRequest | Conflict
}
