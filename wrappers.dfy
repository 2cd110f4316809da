/** Optional values and results, used wherever the Python code returns None
    or raises an exception that a caller handles. */
module Wrappers {

  datatype Option<+T> = None | Some(value: T)

  datatype Result<+R, +E> = Ok(value: R) | Err(error: E)
}
