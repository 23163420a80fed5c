/**
 * Where a poll cycle starts scanning. A checkpoint that is absent or 0 (Python
 * truthiness) counts as unset and triggers the cold-start look-back.
 */
module BlockScanner {
  import opened BridgeTypes

  /** How many blocks below the confirmed tip a cold start looks back. */
  const Lookback: int := 10

  /** The value `_get_start_block` returns to ask for a retry. */
  const RetrySentinel: int := -1

  /** A value, or an exception that propagates out of the call. */
  datatype Outcome<T> = Ok(value: T) | Raise(fault: Fault)

  predicate HasCheckpoint(checkpoint: Option<int>) {
    checkpoint.Some? && checkpoint.value != 0
  }

  /** The highest block considered final at height `height`. */
  function ConfirmedTip(height: int, confirmations: int): int {
    height - confirmations
  }

  /**
   * `_get_start_block`. The height reading is consulted only on a cold start; an
   * `RPCConnectionError` there yields the sentinel, any other failure propagates.
   */
  function StartBlock(checkpoint: Option<int>, first: Reading, confirmations: int): (r: Outcome<int>)
    ensures HasCheckpoint(checkpoint) ==> r == Ok(checkpoint.value + 1)
    ensures !HasCheckpoint(checkpoint) && first.Height? ==> r == Ok(first.value - confirmations - Lookback)
    ensures !HasCheckpoint(checkpoint) && first == Failure(RpcConnection) ==> r == Ok(RetrySentinel)
    ensures r.Raise? <==> !HasCheckpoint(checkpoint) && first == Failure(Unexpected)
  {
    if HasCheckpoint(checkpoint) then Ok(checkpoint.value + 1)
    else match first
      case Height(h) => Ok(ConfirmedTip(h, confirmations) - Lookback)
      case Failure(RpcConnection) => Ok(RetrySentinel)
      case Failure(Unexpected) => Raise(Unexpected)
  }
}
