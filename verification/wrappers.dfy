/** Optional values (Go's nil pointers) and results with an error message
    (Go's `(value, error)` returns), shared by every module of the model. */
module Wrappers {

  /** A Go pointer field: `None` is nil, `Some(v)` points at `v`. */
  datatype Option<+T> = None | Some(value: T)

  /** A Go `(value, error)` pair: `Err` carries the error's message. */
  datatype Result<+T> = Ok(value: T) | Err(error: string)

  /** A Go call that returns only an `error`: `Pass` is nil. */
  datatype Outcome = Pass | Fail(error: string)
}
