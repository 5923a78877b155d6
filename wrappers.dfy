/** Option and Result, the two failure-carrying shapes the model uses for Go's
    nil pointers and (value, error) pairs. */
module Wrappers {

  /** A value that may be absent: a Go pointer that may be nil, or an `error` that may be nil. */
  datatype Option<+T> = None | Some(value: T)

  /** The outcome of a foreign call: a value, or the error it returned. */
  datatype Result<+T, +E> = Success(value: T) | Failure(error: E)
}
