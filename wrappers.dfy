/** Optional values and results with an error message, standing in for Go's
    nil pointers and `(value, error)` returns. */
module Wrappers {

  /** A Go pointer that may be nil: `None` is nil, `Some(v)` points at `v`. */
  datatype Option<+T> = None | Some(value: T)

  /** A Go `(value, error)` pair where exactly one side is meaningful; the error
      is kept as its message, the text of `errors.New`. */
  datatype Result<+T> = Ok(value: T) | Err(error: string)
}
