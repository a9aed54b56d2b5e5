/** Option and Result: a value or its absence, and a value or the
    exception raised instead. */
module Wrappers {

  datatype Option<+T> = None | Some(value: T)

  datatype Result<+T, +E> = Ok(value: T) | Err(error: E)
}
