/** Failure-compatible wrappers used throughout the model: Go's `(T, error)`
    returns become `Result`, and values Go leaves nil become `Option`. */
module Wrappers {

  datatype Option<+T> = None | Some(value: T)

  datatype Result<+R, +E> = Success(value: R) | Failure(error: E)
}
