/** Optional values and results shared by every module of the model. */
module Wrappers {

  /** A possibly absent value: Go's nil or a missing map entry. */
  datatype Option<+T> = None | Some(value: T)

  /** A value or a Go `error`, whose text is kept as a string. */
  datatype Result<+T> = Ok(value: T) | Err(error: string)
}
