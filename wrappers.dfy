/** Option and Result: absence of a value, and an outcome that is either a
    value or the reason the build script aborted. */
module Wrappers {

  datatype Option<+T> = None | Some(value: T)

  datatype Result<+T, +E> = Ok(value: T) | Err(error: E)
}
