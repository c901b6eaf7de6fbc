/** Failure-compatible wrappers used in place of Python's None and exceptions. */
module Wrappers {

  /** Python's `Optional[T]`: `None`, or a value. */
  datatype Option<+T> = None | Some(value: T)

  /** A value, or the exception the Python code would raise instead. */
  datatype Result<+T, +E> = Ok(value: T) | Err(error: E)

  /** A call that returns nothing (`-> None`) and may raise. */
  datatype Outcome<+E> = Pass | Fail(error: E)
}
