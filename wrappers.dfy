/** Failure-carrying results. A Go `(value, error)` pair becomes a `Result`;
    a Go `error` is represented by the text its `Error()` method returns. */
module Wrappers {

  datatype Option<T> = None | Some(value: T)

  datatype Result<T> = Ok(value: T) | Err(error: string)
}
