/** Option and Result, the shapes the model uses for Python's None and for raised exceptions. */
module Wrappers {

  datatype Option<+T> = None | Some(value: T)

  /** `Err` stands for an exception the operation raises; `Ok` for a normal return. */
  datatype Result<+T, +E> = Ok(value: T) | Err(error: E)
}
