/** Failure-carrying results for the swap builders. */
module Outcomes {

  datatype Option<+T> = None | Some(value: T)

  /** The two exceptions the builder raises: "insufficient funds" and "signature failure". */
  datatype SwapError = InsufficientFunds | SignatureFailure

  datatype Result<+T> = Ok(value: T) | Err(error: SwapError)
}
