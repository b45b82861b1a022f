/** Option and Result, the shapes the Rust code returns from `Memory::pop`,
    `Memory::previous`, `Sequence::pop` and `try_start`. */
module Wrappers {

  datatype Option<+T> = None | Some(value: T)

  datatype Result<+R, +E> = Success(value: R) | Failure(error: E)
}
