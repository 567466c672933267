/** Option and Result, used for Rust's `Option<T>` fields and for the fallible
    string conversions behind `finalize`. */
module Wrappers {

  datatype Option<+T> = None | Some(value: T)

  datatype Result<+T, +E> = Ok(value: T) | Err(error: E)
}
