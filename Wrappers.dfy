/** Failure-compatible helper datatypes shared by every module of the model. */
module Wrappers {

  /** An optional value: Go's nil pointer, nil slice or nil error is `None`. */
  datatype Option<+T> = None | Some(value: T)

  /** A value or an error message, for Go's `(T, error)` results. */
  datatype Result<+T> = Success(value: T) | Failure(error: string)
}
