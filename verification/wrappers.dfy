/** Optional values and tagged results, the failure-carrying types of the model. */
module Wrappers {

  /** A value that may be absent: Python's `Optional[...]`, or a key a dict lacks. */
  datatype Option<+T> = None | Some(value: T)

  /** Either a value or the error the Python code would raise instead of returning it. */
  datatype Result<+T, +E> = Ok(value: T) | Err(error: E)
}
