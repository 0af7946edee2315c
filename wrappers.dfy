/** Option, Result and Outcome values that stand for Python's `None`, for a value or a
    raised exception, and for "returned normally" or a raised exception. */
module Wrappers {

  datatype Option<+T> = None | Some(value: T)

  /** `Err` carries the exception the Python code would raise at that point. */
  datatype Result<+T, +E> = Ok(value: T) | Err(error: E)

  datatype Outcome<+E> = Pass | Fail(error: E)
}
