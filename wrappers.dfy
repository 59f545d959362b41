/** Optional values, results and the error values of the ledger store. */
module Wrappers {

  datatype Option<+T> = None | Some(value: T)

  datatype Result<+T, +E> = Ok(value: T) | Err(error: E)

  /** An error value returned by the durable store or a collaborator. */
  datatype Error = Error(reason: string)
}
