/** Option and Result, the error-carrying values the pipeline's operations return
    where the source raises or returns an error payload. */
module Wrappers {

  datatype Option<+T> = None | Some(value: T)

  datatype Result<+T> = Ok(value: T) | Err(message: string)
}
