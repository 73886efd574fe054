/** Option and Result, standing for JavaScript's `null`/`NaN` values and for thrown errors. */
module Wrappers {

  /** A value that may be absent (`null`, `undefined` or `NaN` in the source). */
  datatype Option<+T> = None | Some(value: T)

  /** The outcome of an operation that may throw: `Err` carries the thrown error's message. */
  datatype Result<+T, +E> = Ok(value: T) | Err(error: E)
}
