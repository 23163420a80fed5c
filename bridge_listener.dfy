/**
 * One poll cycle of the listener (`_poll_and_process_events`) as a state transition on
 * the checkpoint and the dedup set, the listener object that performs it in place, and
 * repeated cycles as a fold over their inputs.
 */
module BridgeListener {
  import opened BridgeTypes
  import opened BlockScanner
  import opened StateStore
  import opened EventReconciler

  /** `_last_processed_block` and the dedup set. */
  datatype ListenerState = ListenerState(checkpoint: Option<int>, processed: set<EventKey>)

  /** How a poll cycle ended. */
  datatype CycleExit =
    | RetryLater                    // `_get_start_block` answered the sentinel
    | NothingToScan                 // the start block is above the confirmed tip
    | Scanned(from: int, to: int)   // the range was fetched and the batch reconciled
    | Aborted(fault: Fault)         // an exception reached the handlers that end the cycle

  datatype CycleResult = CycleResult(exit: CycleExit, state: ListenerState, dispatched: seq<ProcessedEvent>)

  /**
   * One cycle. `first` and `second` are the two height readings, `fetched` what the
   * ledger client returned for the range (its errors already collapsed to `[]`), `quote`
   * the price oracle's answers; `dispatched` lists the destination actions, in order.
   */
  function Cycle(s: ListenerState, confirmations: int, first: Reading, second: Reading,
                 fetched: seq<RawEvent>, quote: nat -> Option<real>): (res: CycleResult)
    // nothing changes unless a range is scanned
    ensures !res.exit.Scanned? ==> res.state == s && res.dispatched == []
    // the range ends at the confirmed tip of the second reading, which becomes the checkpoint
    ensures res.exit.Scanned? ==>
      && second == Height(res.exit.to + confirmations)
      && res.exit.from <= res.exit.to
      && res.state.checkpoint == Some(res.exit.to)
      && if HasCheckpoint(s.checkpoint) then res.exit.from == s.checkpoint.value + 1
         else first == Height(res.exit.from + confirmations + Lookback)
    // keys are only added, each only after its action, and never acted upon twice
    ensures res.state.processed == s.processed + KeySet(res.dispatched)
    ensures KeySet(res.dispatched) !! s.processed
    ensures DistinctKeys(res.dispatched)
    // actions follow the (blockNumber, logIndex) order and come from valid fetched events
    ensures DispatchOrdered(res.dispatched)
    ensures forall p :: p in res.dispatched ==> Unparse(p) in fetched && AllFieldsTruthy(Unparse(p))
    // every valid fetched event not seen before is acted upon, whatever else failed
    ensures res.exit.Scanned? ==> KeySet(res.dispatched) == ValidKeys(fetched) - s.processed
  {
    match StartBlock(s.checkpoint, first, confirmations)
    case Raise(f) => CycleResult(Aborted(f), s, [])
    case Ok(start) =>
      if start == RetrySentinel then CycleResult(RetryLater, s, [])
      else match second
        case Failure(f) => CycleResult(Aborted(f), s, [])
        case Height(h) =>
          var latestConfirmed := ConfirmedTip(h, confirmations);
          if start > latestConfirmed then CycleResult(NothingToScan, s, [])
          else
            var batch := SortEvents(fetched);
            var b := Reconcile(s.processed, batch, quote);
            ReconcileAccounting(s.processed, batch, quote);
            ReconcileOrdered(s.processed, batch, quote);
            PermutationKeepsValidKeys(batch, fetched);
            assert forall x :: x in batch ==> x in fetched by {
              forall x | x in batch ensures x in fetched {
                assert x in multiset(batch);
              }
            }
            CycleResult(Scanned(start, latestConfirmed), ListenerState(Some(latestConfirmed), b.processed), b.dispatched)
  }

  class CrossChainBridgeEventListener {
    const confirmations: int
    const store: StateManager
    const processor: EventProcessor
    var lastProcessedBlock: Option<int>

    /** The processor consults the listener's own dedup store. */
    ghost predicate Valid() {
      processor.store == store
    }

    function State(): ListenerState
      reads this, store
    {
      ListenerState(lastProcessedBlock, store.processed)
    }

    constructor (confirmations: int)
      ensures Valid() && fresh(store) && this.confirmations == confirmations
      ensures State() == ListenerState(None, {})
    {
      this.confirmations := confirmations;
      var manager := new StateManager();
      store := manager;
      processor := new EventProcessor(manager);
      lastProcessedBlock := None;
    }

    /** `_poll_and_process_events`; `dispatched` records the destination actions. */
    method PollAndProcessEvents(first: Reading, second: Reading, fetched: seq<RawEvent>, quote: nat -> Option<real>)
      returns (exit: CycleExit, dispatched: seq<ProcessedEvent>)
      requires Valid()
      modifies this, store
      ensures CycleResult(exit, State(), dispatched) == Cycle(old(State()), confirmations, first, second, fetched, quote)
    {
      var start := StartBlock(lastProcessedBlock, first, confirmations);
      if start.Raise? {
        return Aborted(start.fault), [];
      }
      if start.value == RetrySentinel {
        return RetryLater, [];
      }
      if second.Failure? {
        return Aborted(second.fault), [];
      }
      var latestConfirmed := ConfirmedTip(second.value, confirmations);
      if start.value > latestConfirmed {
        return NothingToScan, [];
      }
      dispatched := [];
      if fetched != [] {
        var batch := SortEvents(fetched);
        var i: nat := 0;
        while i < |batch|
          invariant i <= |batch|
          invariant Batch(store.processed, dispatched) == Reconcile(old(store.processed), batch[..i], quote)
          modifies store
        {
          var outcome := processor.ProcessEvent(batch[i], quote(i));
          if outcome.Processed? {
            dispatched := dispatched + [outcome.event];
            store.MarkAsProcessed(KeyOfProcessed(outcome.event));
          }
          assert batch[..i + 1][..i] == batch[..i];
          i := i + 1;
        }
        assert batch[..|batch|] == batch;
      }
      lastProcessedBlock := Some(latestConfirmed);
      exit := Scanned(start.value, latestConfirmed);
    }
  }

  // ---------------------------------------------------------------------------------
  // Lemmas about a single cycle
  // ---------------------------------------------------------------------------------

  /**
   * With a checkpoint `c` (non-zero), the first reading is not used, and the cycle scans
   * exactly when the second reading shows `c + 1` confirmed, unless `c == -2`, whose start
   * block `-1` is taken for the retry sentinel. The checkpoint then strictly grows.
   */
  lemma WarmCycle(s: ListenerState, confirmations: int, first: Reading, second: Reading,
                  fetched: seq<RawEvent>, quote: nat -> Option<real>)
    requires HasCheckpoint(s.checkpoint)
    ensures var res := Cycle(s, confirmations, first, second, fetched, quote);
      var c := s.checkpoint.value;
      && (res.exit.Scanned? <==> c != -2 && second.Height? && c + 1 <= second.value - confirmations)
      && (res.exit.Scanned? ==> res.exit.from == c + 1 && res.state.checkpoint.value > c)
      && res == Cycle(s, confirmations, Failure(Unexpected), second, fetched, quote)
  {
  }

  /**
   * With no checkpoint (absent or 0), the cycle scans exactly when both readings
   * succeed, the cold-start block is not the sentinel and it lies at or below the
   * confirmed tip of the second reading.
   */
  lemma ColdCycle(s: ListenerState, confirmations: int, first: Reading, second: Reading,
                  fetched: seq<RawEvent>, quote: nat -> Option<real>)
    requires !HasCheckpoint(s.checkpoint)
    ensures var res := Cycle(s, confirmations, first, second, fetched, quote);
      && (res.exit.Scanned? <==>
            && first.Height? && second.Height?
            && first.value - confirmations - Lookback != RetrySentinel
            && first.value - Lookback <= second.value)
      && (res.exit.Scanned? ==> res.exit.from == first.value - confirmations - Lookback)
  {
  }

  /**
   * Whether a cycle scans, and the checkpoint it leaves, do not depend on what the fetch
   * returned: an empty result caused by a swallowed fetch error advances it all the same.
   */
  lemma CheckpointIgnoresFetch(s: ListenerState, confirmations: int, first: Reading, second: Reading,
                               fetched1: seq<RawEvent>, quote1: nat -> Option<real>,
                               fetched2: seq<RawEvent>, quote2: nat -> Option<real>)
    ensures Cycle(s, confirmations, first, second, fetched1, quote1).exit
         == Cycle(s, confirmations, first, second, fetched2, quote2).exit
    ensures Cycle(s, confirmations, first, second, fetched1, quote1).state.checkpoint
         == Cycle(s, confirmations, first, second, fetched2, quote2).state.checkpoint
  {
  }

  /**
   * Numeric (or absent) price answers never affect marking: two cycles that differ only
   * in such answers leave the same state and act on the same events in the same order.
   * A malformed price response, which makes `process_event` fail, is not modelled.
   */
  lemma EnrichmentIndependence(s: ListenerState, confirmations: int, first: Reading, second: Reading,
                               fetched: seq<RawEvent>, quote1: nat -> Option<real>, quote2: nat -> Option<real>)
    ensures var r1 := Cycle(s, confirmations, first, second, fetched, quote1);
      var r2 := Cycle(s, confirmations, first, second, fetched, quote2);
      r1.state == r2.state && Sources(r1.dispatched) == Sources(r2.dispatched)
  {
    CheckpointIgnoresFetch(s, confirmations, first, second, fetched, quote1, fetched, quote2);
    if Cycle(s, confirmations, first, second, fetched, quote1).exit.Scanned? {
      ScannedCycle(s, confirmations, first, second, fetched, quote1);
      ScannedCycle(s, confirmations, first, second, fetched, quote2);
      ReconcileIgnoresQuotes(s.processed, SortEvents(fetched), quote1, quote2);
    }
  }

  /** A scanned cycle commits the reconciliation of the sorted batch. */
  lemma ScannedCycle(s: ListenerState, confirmations: int, first: Reading, second: Reading,
                     fetched: seq<RawEvent>, quote: nat -> Option<real>)
    requires Cycle(s, confirmations, first, second, fetched, quote).exit.Scanned?
    ensures var res := Cycle(s, confirmations, first, second, fetched, quote);
      var b := Reconcile(s.processed, SortEvents(fetched), quote);
      res.state == ListenerState(Some(res.exit.to), b.processed) && res.dispatched == b.dispatched
  {
  }

  /**
   * An overlapping rescan after a scanned cycle (the same events fetched again) acts on
   * nothing: every valid event of the batch is already marked.
   */
  lemma RescanActsOnNothing(s: ListenerState, confirmations: int, first: Reading, second: Reading,
                            fetched: seq<RawEvent>, quote: nat -> Option<real>,
                            first2: Reading, second2: Reading, quote2: nat -> Option<real>)
    requires Cycle(s, confirmations, first, second, fetched, quote).exit.Scanned?
    ensures var s1 := Cycle(s, confirmations, first, second, fetched, quote).state;
      Cycle(s1, confirmations, first2, second2, fetched, quote2).dispatched == []
  {
    var r1 := Cycle(s, confirmations, first, second, fetched, quote);
    var r2 := Cycle(r1.state, confirmations, first2, second2, fetched, quote2);
    assert ValidKeys(fetched) <= r1.state.processed;
    NoKeysNoRecords(r2.dispatched);
  }

  /** Cold start at height 100 with 12 confirmations scans blocks 78 to 88. */
  lemma ColdStartExample(processed: set<EventKey>, fetched: seq<RawEvent>, quote: nat -> Option<real>)
    ensures Cycle(ListenerState(None, processed), 12, Height(100), Height(100), fetched, quote).exit == Scanned(78, 88)
  {
  }

  /**
   * A checkpoint of 0 counts as unset, so the cold start may move it backwards: at height
   * 5 with 12 confirmations it drops from 0 to -7.
   */
  lemma ZeroCheckpointCanRegress(processed: set<EventKey>, fetched: seq<RawEvent>, quote: nat -> Option<real>)
    ensures Cycle(ListenerState(Some(0), processed), 12, Height(5), Height(5), fetched, quote).state.checkpoint == Some(-7)
  {
  }

  // ---------------------------------------------------------------------------------
  // Repeated cycles
  // ---------------------------------------------------------------------------------

  /** What one cycle is given. */
  datatype CycleInput = CycleInput(first: Reading, second: Reading, fetched: seq<RawEvent>, quote: nat -> Option<real>)

  datatype RunResult = RunResult(state: ListenerState, log: seq<ProcessedEvent>)

  lemma ConcatKeys(a: seq<ProcessedEvent>, b: seq<ProcessedEvent>)
    requires DistinctKeys(a) && DistinctKeys(b) && KeySet(a) !! KeySet(b)
    ensures DistinctKeys(a + b) && KeySet(a + b) == KeySet(a) + KeySet(b)
  {
    assert forall x :: x in a + b <==> x in a || x in b;
    forall i, j | 0 <= i < j < |a + b|
      ensures KeyOfProcessed((a + b)[i]) != KeyOfProcessed((a + b)[j])
    {
      if j < |a| {
        assert (a + b)[i] == a[i] && (a + b)[j] == a[j];
      } else if i >= |a| {
        assert (a + b)[i] == b[i - |a|] && (a + b)[j] == b[j - |a|];
      } else {
        assert (a + b)[i] == a[i] && (a + b)[j] == b[j - |a|];
        assert KeyOfProcessed(a[i]) in KeySet(a) && KeyOfProcessed(b[j - |a|]) in KeySet(b);
      }
    }
  }

  /**
   * Cycles one after another, as the `run` loop drives them; `log` lists every
   * destination action. Across the whole run each key is acted upon at most once, never
   * if it was marked before the run, and the dedup set is exactly the old one plus the
   * keys acted upon.
   */
  function Run(s: ListenerState, confirmations: int, inputs: seq<CycleInput>): (r: RunResult)
    ensures r.state.processed == s.processed + KeySet(r.log)
    ensures KeySet(r.log) !! s.processed
    ensures DistinctKeys(r.log)
    decreases |inputs|
  {
    if inputs == [] then RunResult(s, [])
    else
      var i := inputs[0];
      var c := Cycle(s, confirmations, i.first, i.second, i.fetched, i.quote);
      var rest := Run(c.state, confirmations, inputs[1..]);
      ConcatKeys(c.dispatched, rest.log);
      RunResult(rest.state, c.dispatched + rest.log)
  }

  /** From a positive checkpoint the checkpoint never moves backwards. */
  lemma {:induction false} PositiveCheckpointNeverRegresses(s: ListenerState, confirmations: int, inputs: seq<CycleInput>)
    requires s.checkpoint.Some? && s.checkpoint.value > 0
    ensures var r := Run(s, confirmations, inputs);
      r.state.checkpoint.Some? && r.state.checkpoint.value >= s.checkpoint.value
    decreases |inputs|
  {
    if inputs != [] {
      var i := inputs[0];
      var c := Cycle(s, confirmations, i.first, i.second, i.fetched, i.quote);
      WarmCycle(s, confirmations, i.first, i.second, i.fetched, i.quote);
      PositiveCheckpointNeverRegresses(c.state, confirmations, inputs[1..]);
    }
  }

  /**
   * A checkpoint of -2 stalls the listener for good: its start block -1 is read as the
   * retry sentinel in every later cycle, so nothing is scanned or acted upon again.
   */
  lemma {:induction false} StallAtMinusTwo(s: ListenerState, confirmations: int, inputs: seq<CycleInput>)
    requires s.checkpoint == Some(-2)
    ensures Run(s, confirmations, inputs) == RunResult(s, [])
    decreases |inputs|
  {
    if inputs != [] {
      var i := inputs[0];
      assert Cycle(s, confirmations, i.first, i.second, i.fetched, i.quote) == CycleResult(RetryLater, s, []);
      StallAtMinusTwo(s, confirmations, inputs[1..]);
    }
  }

  /**
   * The stall is reachable from a fresh listener: a chain of height 10 with 12
   * confirmations commits checkpoint -2 on the first cycle.
   */
  lemma {:induction false} ShallowChainStalls(processed: set<EventKey>, fetched: seq<RawEvent>, quote: nat -> Option<real>,
                           later: seq<CycleInput>)
    ensures var s1 := Cycle(ListenerState(None, processed), 12, Height(10), Height(10), fetched, quote).state;
      s1.checkpoint == Some(-2) && Run(s1, 12, later) == RunResult(s1, [])
  {
    var s1 := Cycle(ListenerState(None, processed), 12, Height(10), Height(10), fetched, quote).state;
    StallAtMinusTwo(s1, 12, later);
  }
}
