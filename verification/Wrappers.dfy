/** The optional and fallible values that stand for the source's `Option`, `Result` and `Poll`. */
module Wrappers {
  datatype Option<+T> = None | Some(value: T)

  datatype Result<+T, +E> = Success(value: T) | Failure(error: E)

  datatype Poll<+T> = Pending | Ready(value: T)
}
