/** Option and Result, the two shapes in which the model returns Go's nilable values and error pairs. */
module Wrappers {

  /** A Go pointer or a nilable value: `None` is nil. */
  datatype Option<+T> = None | Some(value: T)

  /** A Go `(value, error)` pair in which exactly one half is set. */
  datatype Result<+T, +E> = Ok(value: T) | Err(error: E)
}
