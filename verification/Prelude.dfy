/** Result shapes shared by every module of the model. */
module Prelude {
  datatype Option<+T> = None | Some(value: T)

  /** A call that the source answers with `Ok(value)` or with an error. */
  datatype Result<+T, +E> = Ok(value: T) | Err(error: E)
}
