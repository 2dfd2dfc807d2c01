/** Types the pallets take from the runtime they are built into: account
    identities, balances, block numbers, and the shape of a call's outcome. */
module Runtime {

  /** An account identity (u64 in the test runtime). */
  type AccountId = nat

  /** A currency amount (u128 in the test runtime; unbounded here). */
  type Balance = nat

  /** The host's block counter. */
  type BlockNumber = nat

  datatype Option<+T> = None | Some(value: T)

  datatype Result<+T, +E> = Success(value: T) | Failure(error: E)

  /** What a dispatchable call returns: success, or the error that aborted it.
      An aborted call leaves no trace in storage. */
  datatype DispatchResult<+E> = Ok | Err(error: E)
}
