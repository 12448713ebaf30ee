/** Wrappers shared by every module of the model. */
module Wrappers {

  /** An optional value; a Go `error` that may be nil is an `Option<Error>`. */
  datatype Option<+T> = None | Some(value: T)

  /** The two outcomes of a storage call: the rows it returned, or its error. */
  datatype Result<+T, +E> = Success(value: T) | Failure(error: E)
}
