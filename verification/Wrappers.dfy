/** The two result shapes the contracts use: an optional storage row, and an entry
    point that either succeeds with a value or refuses with an error. */
module Wrappers {

  datatype Option<+T> = None | Some(value: T)

  datatype Result<+T, +E> = Ok(value: T) | Err(error: E)
}
