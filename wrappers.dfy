/** Option and Result, the two failure-carrying shapes the handler works with. */
module Wrappers {

  /** An optional value: the Rust `Option<T>`. */
  datatype Option<+T> = None | Some(value: T)

  /** A value or an error: the Rust `Result<T, E>`. */
  datatype Result<+T, +E> = Success(value: T) | Failure(error: E)
}
