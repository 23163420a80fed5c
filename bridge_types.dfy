/**
 * Values exchanged by the bridge listener: the fetched `TokensLocked` log as the ledger
 * client delivers it, the dedup key built from it, the structured record that the event
 * processor hands to the destination action, and the outcome of a height lookup.
 */
module BridgeTypes {

  datatype Option<T> = None | Some(value: T)

  /** Failures of a ledger call: `RPCConnectionError`, or any other exception. */
  datatype Fault = RpcConnection | Unexpected

  /** One reading of the source chain's latest block number. */
  datatype Reading = Height(value: int) | Failure(fault: Fault)

  /**
   * The dedup key. The source joins the two parts into the text "{txHash}-{logIndex}";
   * the hex form of a transaction hash holds no '-', so the pair carries the same identity.
   */
  datatype EventKey = EventKey(txHash: string, logIndex: int)

  /**
   * A raw log entry: block number, hex form of the transaction hash, log index and the
   * six named arguments, each of which may be absent (`args.get` answering `None`).
   */
  datatype RawEvent = RawEvent(
    blockNumber: int,
    txHash: string,
    logIndex: int,
    sender: Option<string>,
    recipient: Option<string>,
    token: Option<string>,
    amount: Option<int>,
    destinationChainId: Option<int>,
    nonce: Option<int>)

  /** The dictionary that `process_event` returns, with its optional USD estimate. */
  datatype ProcessedEvent = ProcessedEvent(
    txHash: string,
    logIndex: int,
    blockNumber: int,
    sender: string,
    recipient: string,
    tokenAddress: string,
    amount: int,
    destinationChainId: int,
    nonce: int,
    amountUsdEstimate: Option<real>)

  function KeyOf(e: RawEvent): EventKey {
    EventKey(e.txHash, e.logIndex)
  }

  function KeyOfProcessed(p: ProcessedEvent): EventKey {
    EventKey(p.txHash, p.logIndex)
  }

  /** The position by which a batch is ordered: `(blockNumber, logIndex)`. */
  function Position(e: RawEvent): (int, int) {
    (e.blockNumber, e.logIndex)
  }

  function PositionOfProcessed(p: ProcessedEvent): (int, int) {
    (p.blockNumber, p.logIndex)
  }

  /** Lexicographic order on positions, as Python compares tuples. */
  predicate PositionLe(a: (int, int), b: (int, int)) {
    a.0 < b.0 || (a.0 == b.0 && a.1 <= b.1)
  }

  /** Python truthiness of an optional text value: `None` and `""` are falsy. */
  predicate TruthyText(o: Option<string>) {
    o.Some? && o.value != ""
  }

  /** Python truthiness of an optional integer: `None` and `0` are falsy. */
  predicate TruthyNumber(o: Option<int>) {
    o.Some? && o.value != 0
  }

  /**
   * The validation test of `process_event`: every value of the parsed dictionary is
   * truthy. This rejects a log index of 0 and a block number of 0 as well as a missing
   * or zero argument.
   */
  predicate AllFieldsTruthy(e: RawEvent) {
    && e.txHash != ""
    && e.logIndex != 0
    && e.blockNumber != 0
    && TruthyText(e.sender)
    && TruthyText(e.recipient)
    && TruthyText(e.token)
    && TruthyNumber(e.amount)
    && TruthyNumber(e.destinationChainId)
    && TruthyNumber(e.nonce)
  }

  /** Token amounts are carried in units of 10^-18 of a token. */
  const UnitsPerToken: real := 1000000000000000000.0

  /**
   * Builds the processed record of a valid event. The estimate is attached only when the
   * price oracle answered with a truthy (present, non-zero) price.
   */
  function Parse(e: RawEvent, priceUsd: Option<real>): (p: ProcessedEvent)
    requires AllFieldsTruthy(e)
    ensures Unparse(p) == e
    ensures KeyOfProcessed(p) == KeyOf(e) && PositionOfProcessed(p) == Position(e)
    ensures p.amountUsdEstimate.Some? <==> priceUsd.Some? && priceUsd.value != 0.0
  {
    var estimate :=
      if priceUsd.Some? && priceUsd.value != 0.0
      then Some((e.amount.value as real / UnitsPerToken) * priceUsd.value)
      else None;
    ProcessedEvent(
      e.txHash, e.logIndex, e.blockNumber,
      e.sender.value, e.recipient.value, e.token.value,
      e.amount.value, e.destinationChainId.value, e.nonce.value,
      estimate)
  }

  /** The raw event a processed record was built from (the enrichment is dropped). */
  function Unparse(p: ProcessedEvent): RawEvent {
    RawEvent(
      p.blockNumber, p.txHash, p.logIndex,
      Some(p.sender), Some(p.recipient), Some(p.tokenAddress),
      Some(p.amount), Some(p.destinationChainId), Some(p.nonce))
  }

  /** The raw events behind a sequence of records, in order. */
  function Sources(d: seq<ProcessedEvent>): seq<RawEvent> {
    if d == [] then [] else Sources(d[..|d| - 1]) + [Unparse(d[|d| - 1])]
  }

  lemma SourcesSnoc(d: seq<ProcessedEvent>, p: ProcessedEvent)
    ensures Sources(d + [p]) == Sources(d) + [Unparse(p)]
  {
  }

  /** The keys of a sequence of processed records. */
  function KeySet(d: seq<ProcessedEvent>): set<EventKey> {
    set p | p in d :: KeyOfProcessed(p)
  }

  lemma NoKeysNoRecords(d: seq<ProcessedEvent>)
    ensures KeySet(d) == {} ==> d == []
  {
    if d != [] {
      assert KeyOfProcessed(d[0]) in KeySet(d);
    }
  }

  /** No key occurs twice: each logical event was acted upon at most once. */
  predicate DistinctKeys(d: seq<ProcessedEvent>) {
    forall i, j :: 0 <= i < j < |d| ==> KeyOfProcessed(d[i]) != KeyOfProcessed(d[j])
  }
}
