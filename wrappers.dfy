/** Failure-carrying results: `None`/`Err` stand for the source's `None` returns and its
    caught exceptions. */
module Wrappers {

  datatype Option<+T> = None | Some(value: T)

  datatype Result<+T, +E> = Ok(value: T) | Err(error: E)
}
