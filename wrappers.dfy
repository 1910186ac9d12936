/** Option and the error-carrying result that `anyhow::Result` plays in the program. */
module Wrappers {

  datatype Option<+T> = None | Some(value: T)

  /** A value, or the context message of the error that `?` propagates out of `main`. */
  datatype Result<+T> = Ok(value: T) | Err(context: string)
}
