/** Optional values and error-carrying results, used where the Python code returns None
    or raises. */
module Wrappers {

  datatype Option<+T> = None | Some(value: T)

  datatype Result<+T> = Ok(value: T) | Err(message: string)
}
