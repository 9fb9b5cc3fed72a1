/** Option and Result: the model's stand-ins for JavaScript's `undefined`/`null` and for thrown errors. */
module Wrappers {

  /** `None` is a value the source leaves `undefined` (or passes as `null`). */
  datatype Option<+T> = None | Some(value: T)

  /** `Err` is an exception the source throws. */
  datatype Result<+T, +E> = Ok(value: T) | Err(error: E)
}
