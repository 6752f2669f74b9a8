/** Option and Result, the two failure-carrying shapes the generator's Rust code uses
    (`Option<T>` and `eyre::Result<T>`). */
module Wrappers {

  datatype Option<+T> = None | Some(value: T)

  datatype Result<+R, +E> = Success(value: R) | Failure(error: E)
}
