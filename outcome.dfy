/**
 * Results of operations that the Go code ends with a `panic`: a panic is an
 * `Err` (or `None`) carrying the panic message, every other outcome an
 * `Ok` (or `Some`).
 */
module Outcomes {

  datatype Option<T> = None | Some(value: T)

  datatype Result<T> = Ok(value: T) | Err(message: string)
  {
    predicate IsFailure() { Err? }
  }
}
