/** Optional values and error-carrying results shared by every model in this project. */
module Wrappers {

  datatype Option<+T> = None | Some(value: T)

  /** The outcome of an operation that the program reports with an error value. */
  datatype Result<+T> = Ok(value: T) | Err(message: string)
}
