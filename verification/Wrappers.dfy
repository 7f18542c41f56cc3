/** A value that may be missing, a value or the reason there is none, and the two failures of a database call. */
module Wrappers {

  datatype Option<+T> = None | Some(value: T)

  datatype Result<+T, +E> = Ok(value: T) | Err(error: E)

  datatype DbError = DbFailed | RecordNotFound
}
