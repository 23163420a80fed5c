# Bridge event listener: one reorg-aware, deduplicating poll cycle

This project models the core of a cross-chain bridge listener written in Python
(`script.py`). The listener polls a source chain for `TokensLocked` events. It scans only
blocks at least `confirmations` below the chain tip. It orders each fetched batch by
`(blockNumber, logIndex)`. It skips events whose key `(txHash, logIndex)` it has already
handled, and rejects events with a falsy field. It hands every other event to a
destination action and marks the key once the action returns. At the end of the cycle
it moves its checkpoint (`_last_processed_block`) to the confirmed tip.

Modules, one per component of the listener:

- `BridgeTypes` (`bridge_types.dfy`): the raw log and the processed record. It also holds
  the dedup key, the field-truthiness test used for validation, and a height reading,
  which is either a height or a failure (`RPCConnectionError` or another exception).
- `StateStore` (`state_store.dfy`): `StateManager`, a class whose `processed` set field
  is updated in place.
- `BlockScanner` (`block_scanner.dfy`): the start-block arithmetic of
  `_get_start_block`. It uses Python truthiness, so a checkpoint of `0` counts as unset.
  It also holds the cold-start look-back of 10 and the retry sentinel `-1`.
- `EventReconciler` (`event_reconciler.dfy`): the stable sort of the batch and
  `process_event` as a function. It holds the `EventProcessor` class. The per-event loop
  is specified by `Reconcile`, a fold over the sorted batch, with lemmas about it.
- `BridgeListener` (`bridge_listener.dfy`): `Cycle`, one poll cycle as a transition on
  `(checkpoint, processed)`. It holds `CrossChainBridgeEventListener`, whose
  `PollAndProcessEvents` runs the cycle in place, with the per-event loop proved against
  `Reconcile`. It also holds `Run`, repeated cycles as a fold over their inputs.

The ledger, the price service and the destination action are inputs. A cycle receives
two height readings (the code reads the height twice), the fetched events and the price
service's answers. A fetch error has already become `[]` at that point. The destination
action always succeeds. The records it receives are returned as `dispatched`.

Behaviour of the code as written that the lemmas make explicit:

- The checkpoint moves to the confirmed tip even when the fetch swallowed an error
  (`CheckpointIgnoresFetch`). The comment at script.py:311 says the checkpoint moves only
  if the scan succeeded, but `get_events` turns a failed fetch into `[]` (script.py:166-171)
  and line 312 assigns the tip unconditionally. The model follows the assignment.
- A checkpoint of `0` counts as unset, so the next cycle cold-starts and can move the
  checkpoint backwards (`ZeroCheckpointCanRegress`). The checkpoint is therefore not
  monotone; it never decreases only from a positive value
  (`PositiveCheckpointNeverRegresses`).
- Validation rejects `logIndex == 0` and `blockNumber == 0`. The first log of every block
  therefore never reaches the destination action (`LogIndexZeroExample`).
- A computed start block of exactly `-1` is taken for the retry sentinel. On a cold start
  this skips every cycle whose first height reading is `confirmations + 9` (`ColdCycle`). A checkpoint of `-2` produces that start block in
  every later cycle, so the listener never scans again (`StallAtMinusTwo`). A fresh
  listener on a chain of height 10 with 12 confirmations reaches that checkpoint
  (`ShallowChainStalls`).

## Model

| member | source | states |
|---|---|---|
| `BridgeTypes.Parse` | script.py:216-237 | The record of a valid event carries exactly that event's fields (`Unparse` gives the event back), so it has the same key and position. A USD estimate is attached exactly when the price answer is present and non-zero. |
| `BridgeTypes.AllFieldsTruthy` | script.py:217-232 | The validation test: every parsed value is truthy, so a missing argument, a zero amount, chain id or nonce, an empty text, a log index of 0 and a block number of 0 are all rejected. Its consequences are stated by `Process` and `LogIndexZeroExample`. |
| `StateStore.StateManager.constructor` | script.py:112-113 | The dedup set starts empty. |
| `StateStore.StateManager.IsProcessed` | script.py:116-118 | Answers whether the key is in the set. |
| `StateStore.StateManager.MarkAsProcessed` | script.py:120-122 | The set becomes the old set plus the key. The key is then present, and no other key changes membership. |
| `BlockScanner.HasCheckpoint` | script.py:263 | Python truthiness of the checkpoint: absent and `0` both count as unset. Its effect is stated by `WarmCycle`, `ColdCycle` and `ZeroCheckpointCanRegress`. |
| `BlockScanner.StartBlock` | script.py:261-270 | With a set checkpoint `c` the scan starts at `c+1`, whatever the height reading. On a cold start it starts `confirmations + 10` below the first height; an `RPCConnectionError` gives the sentinel `-1`; any other failure, and only that, propagates. `Cycle`, `WarmCycle` and `ColdCycle` state what a cycle does with it. |
| `EventReconciler.Insert` | script.py:299 | Inserting into a sorted batch keeps it sorted by `(blockNumber, logIndex)` and adds exactly that event to the multiset. |
| `EventReconciler.SortEvents` | script.py:299 | The batch comes out sorted by `(blockNumber, logIndex)` and is a permutation of the fetched batch. |
| `EventReconciler.SortIsStable` | script.py:299 | Events at the same position keep their fetched order, as Python's `sorted` does. |
| `EventReconciler.Process` | script.py:207-240 | A key already marked gives a skip, before validation. An unmarked event with a falsy field gives a processing error. An unmarked event whose fields are all truthy always gives its parsed record, enriched with that price answer. A record is produced only for a valid, unmarked event, and it is that event. |
| `EventReconciler.EventProcessor.constructor` | script.py:180-181 | The processor uses the dedup store it is given. |
| `EventReconciler.EventProcessor.ProcessEvent` | script.py:200-243 | Queries the dedup store and answers as `Process` does on the store's current set. |
| `EventReconciler.Step` | script.py:300-309 | One iteration: a valid, unmarked event is acted upon and its key is marked right after; a marked or invalid event leaves the set and the actions unchanged, and the loop goes on. |
| `EventReconciler.Reconcile` | script.py:299-309 | The loop over the sorted batch only adds keys, and acts at most once per fetched event. `ReconcileAccounting`, `ReconcileOrdered` and `ReconcileIgnoresQuotes` state its dedup accounting, ordering and independence from the price answers. |
| `EventReconciler.ReconcileAccounting` | script.py:299-309 | After the loop, the set is the old set plus the keys acted upon. No key acted upon was marked before, and none is acted upon twice. The keys acted upon are exactly the keys of the valid batch events not marked before. So a rejected event does not stop the rest of the batch. Every record acted upon comes from a valid event of the batch. |
| `EventReconciler.ReconcileOrdered` | script.py:299-306 | Over a sorted batch, the destination action sees records in ascending `(blockNumber, logIndex)` order. |
| `EventReconciler.ReconcileIgnoresQuotes` | script.py:234-237 | The price answers change neither the dedup set nor which events are acted upon, nor their order. |
| `EventReconciler.OrderingExample` | script.py:299 | Events fetched at (10,2), (9,0), (10,0) are handled in the order (9,0), (10,0), (10,2). |
| `EventReconciler.LogIndexZeroExample` | script.py:209-232 | In that batch, the two events with log index 0 fail validation, and only (10,2) is acted upon. |
| `BridgeListener.Cycle` | script.py:272-318 | Unless a range is scanned, nothing changes and nothing is acted upon. This covers the sentinel, the range guard and both failed readings. A scanned range ends at the confirmed tip of the second reading, that tip becomes the checkpoint, and the range starts at checkpoint+1 or at the cold-start block. Keys are only added, each right after its action. No key is acted upon twice or was marked before. Actions follow `(blockNumber, logIndex)` order and come from valid fetched events. Every valid, unseen fetched event is acted upon. |
| `BridgeListener.CrossChainBridgeEventListener.constructor` | script.py:249-259 | A new listener has no checkpoint, an empty dedup set, and a processor sharing that set. |
| `BridgeListener.CrossChainBridgeEventListener.PollAndProcessEvents` | script.py:272-318 | The new checkpoint, the new dedup set, the exit and the actions performed are exactly those of `Cycle` on the old state. |
| `BridgeListener.WarmCycle` | script.py:261-264 | With a non-zero checkpoint `c`, the first reading is unused. The cycle scans exactly when the second reading confirms block `c+1`, unless `c = -2` (sentinel). It then starts at `c+1` and the checkpoint strictly grows. |
| `BridgeListener.ColdCycle` | script.py:263-283 | With no checkpoint (absent or 0), the cycle scans exactly when both readings succeed, the start block `H1-confirmations-10` is not `-1`, and it lies at or below `H2-confirmations`. |
| `BridgeListener.CheckpointIgnoresFetch` | script.py:166-171 | Whether a cycle scans, and the checkpoint it leaves, do not depend on the fetched events. A swallowed fetch error still advances the checkpoint. |
| `BridgeListener.ScannedCycle` | script.py:299-312 | A scanned cycle commits the loop's dedup set and actions over the sorted batch, with the confirmed tip as the checkpoint. |
| `BridgeListener.EnrichmentIndependence` | script.py:186-198 | Cycles that differ only in the price answers leave the same state and act on the same events in the same order. |
| `BridgeListener.RescanActsOnNothing` | script.py:211-214 | After a scanned cycle, a later cycle that fetches the same events again acts on nothing. |
| `BridgeListener.ColdStartExample` | script.py:263-281 | A cold start at height 100 with 12 confirmations scans blocks 78 to 88. |
| `BridgeListener.ZeroCheckpointCanRegress` | script.py:263-267 | A checkpoint of 0 counts as unset. At height 5 with 12 confirmations, the next checkpoint is -7. |
| `BridgeListener.Run` | script.py:334-348 | Across any sequence of cycles, each key is acted upon at most once, and never if marked before the run. The final dedup set is exactly the initial one plus the keys acted upon. |
| `BridgeListener.PositiveCheckpointNeverRegresses` | script.py:263-264 | From a positive checkpoint, no sequence of cycles moves the checkpoint backwards. |
| `BridgeListener.StallAtMinusTwo` | script.py:270-276 | With checkpoint -2, every sequence of cycles leaves the state unchanged and acts on nothing. |
| `BridgeListener.ShallowChainStalls` | script.py:267-312 | A fresh listener at height 10 with 12 confirmations commits checkpoint -2 and then stalls for good. |

## Left out

- Ledger access (`BlockchainConnector.connect`, `get_contract`, `get_latest_block_number`, `get_events`, script.py:126-171) is web3 RPC. Each height lookup is a `Reading` input, and the fetch is its result sequence with errors already collapsed to `[]`. The reconnect attempt after an `RPCConnectionError` (script.py:316) is I/O and is not modelled.
- The price lookup (`_get_token_price_usd`, script.py:186-198) is an HTTP call. Its answers are the input `quote`, indexed by the event's position in the sorted batch, and each answer is a number or nothing. The estimate uses exact reals; float rounding and NaN prices are not modelled.
- EventReconciler.ReconcileIgnoresQuotes holds only for numeric (or absent) price answers. A malformed response makes the event fail in the code: a JSON body that is not a dictionary raises `AttributeError` at script.py:195, and a truthy non-numeric `usd` raises `TypeError` at script.py:237. `process_event` rewraps either as `EventProcessingError` (script.py:242-243), the loop catches it (script.py:308), and that event is neither acted upon nor marked. An `Option<real>` answer cannot express such a response.
- BridgeListener.EnrichmentIndependence holds only for numeric (or absent) price answers, for the same reason: a malformed price response drops that event from the cycle's actions and leaves its key unmarked, while the checkpoint still moves past its block.
- `simulate_destination_chain_action` (script.py:320-332) only logs. It is modelled as an action that always succeeds and records its argument in `dispatched`.
- `run` (script.py:334-348) loops forever with sleeps, signal handling and backoff. Timing and signals are not modelled. Repeated cycles are the fold `Run`.
- The dedup key is the pair `(txHash, logIndex)`, not the joined text `"{txHash}-{logIndex}"`. These are the same identity because the hex form of a hash contains no `-`.
- Block numbers and log indexes are integers. A log entry where one is missing is not modelled; in the code `sorted` would raise and the catch-all at script.py:317 would end the cycle.
- Exceptions raised while reading a malformed log entry inside `process_event` are not modelled beyond the falsy-field check.
- `loader.py`, the module-level configuration, the ABI text, logging setup and `log_event_5543` are configuration bootstrap and utilities, not core logic.
- Persistence and concurrency: the store is in memory and cycles run one at a time, as in the code.
