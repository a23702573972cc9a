/** Option and Result, for the mapper's "no assignment" and the grouper's failure on empty input. */
module Wrappers {

  datatype Option<T> = None | Some(value: T)

  datatype Result<T, E> = Ok(value: T) | Err(error: E)
}
