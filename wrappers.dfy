/** Option and Result, used for absent values and for operations that throw. */
module Wrappers {

  datatype Option<+T> = None | Some(value: T)

  /** `Ok` is a normal return, `Err` an exception carrying an error value. */
  datatype Result<+T, +E> = Ok(value: T) | Err(error: E)
}
