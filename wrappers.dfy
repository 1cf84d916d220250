/** Option and Result, the two wrappers the rest of the model uses for
    Swift optionals and for `Result<Success, Failure>` / thrown errors. */
module Wrappers {

  datatype Option<+T> = None | Some(value: T)

  /** Swift's `Result`: `.success(value)` or `.failure(error)`. */
  datatype Result<+R, +E> = Success(value: R) | Failure(error: E)
}
