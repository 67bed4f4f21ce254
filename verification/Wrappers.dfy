/** Result types shared by every component. */
module Wrappers {

  /** A value that the source leaves `null` or `undefined`. */
  datatype Option<+T> = None | Some(value: T)

  /** A call that either returns or throws. */
  datatype Result<+T, +E> = Ok(value: T) | Err(error: E)
}
