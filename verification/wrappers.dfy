/** The optional value and the value-or-exception result shared by the other modules. */
module Wrappers {

  /** Python's `None` or a value. */
  datatype Option<+T> = None | Some(value: T)

  /** The value an operation returns, or the exception it raises. */
  datatype Result<+T, +E> = Ok(value: T) | Err(error: E)
}
