/** Option and Result, the two failure-carrying types the Rust code uses
    (`Option<T>` from `attr(..)`, `Result<T, E>` from `FromStr`). */
module Wrappers {

  datatype Option<+T> = None | Some(value: T)

  datatype Result<+T, +E> = Ok(value: T) | Err(error: E)
}
