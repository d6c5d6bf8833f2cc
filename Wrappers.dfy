/** Failure-compatible wrappers shared by the whole model: `Option` stands for a nullable
    reference, `Result` for a call that either returns a value or throws an exception. */
module Wrappers {

  datatype Option<+T> = None | Some(value: T)

  datatype Result<+R, +E> = Success(value: R) | Failure(error: E)
}
