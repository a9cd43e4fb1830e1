/** Failure-compatible wrappers used throughout the ledger model. */
module Wrappers {

  /** An optional value: a missing record, an unset optional field, JavaScript `undefined`. */
  datatype Option<+T> = None | Some(value: T)

  /** The outcome of an operation that may raise a domain error. */
  datatype Result<+R, +E> = Ok(value: R) | Err(error: E)
}
