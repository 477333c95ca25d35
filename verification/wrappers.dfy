/** Wrappers used throughout the model: an optional value
    (the source's `Option`) and a value-or-error (an `unwrap()` that may fail). */
module Wrappers {

  datatype Option<+T> = None | Some(value: T)

  datatype Result<+T, +E> = Ok(value: T) | Err(error: E)
}
