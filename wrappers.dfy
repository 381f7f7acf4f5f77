/** Small failure-carrying datatypes shared by the other modules. */
module Wrappers {

  /** A value that may be absent: Python's `None` or a present value. */
  datatype Option<+T> = None | Some(value: T)

  /** The outcome of an operation that returns nothing or raises `error`. */
  datatype Outcome<+E> = Pass | Fail(error: E)

  /** A value or the error raised instead of it. */
  datatype Result<+T, +E> = Ok(value: T) | Err(error: E)
}
