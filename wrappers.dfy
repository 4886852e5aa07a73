/** Optional values and Python-style error returns. An `Err` carries `str(e)` of the exception. */
module Wrappers {
  datatype Option<+T> = None | Some(value: T)

  datatype Result<+T, +E> = Ok(value: T) | Err(error: E)
}
