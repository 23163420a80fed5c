/**
 * The per-batch part of a poll cycle: the batch is sorted by `(blockNumber, logIndex)`,
 * then each event goes through `process_event` (dedup check, then field validation) and,
 * when it yields a record, through the destination action and the marking of its key.
 */
module EventReconciler {
  import opened BridgeTypes
  import opened StateStore

  // ---------------------------------------------------------------------------------
  // Ordering the batch (Python's stable `sorted` with key `(blockNumber, logIndex)`)
  // ---------------------------------------------------------------------------------

  predicate Sorted(s: seq<RawEvent>) {
    forall i, j :: 0 <= i < j < |s| ==> PositionLe(Position(s[i]), Position(s[j]))
  }

  /** Inserts `e` before the first element whose position is not below its own. */
  function Insert(e: RawEvent, s: seq<RawEvent>): (r: seq<RawEvent>)
    requires Sorted(s)
    ensures Sorted(r)
    ensures multiset(r) == multiset(s) + multiset{e}
  {
    if s == [] || PositionLe(Position(e), Position(s[0])) then
      ConsSorted(e, s);
      [e] + s
    else
      var t := Insert(e, s[1..]);
      assert s == [s[0]] + s[1..];
      InsertedBound(s[0], e, s[1..], t);
      ConsSorted(s[0], t);
      [s[0]] + t
  }

  /** A sorted sequence stays sorted under a new head that is not above any element. */
  lemma ConsSorted(x: RawEvent, t: seq<RawEvent>)
    requires Sorted(t)
    requires forall y :: y in t ==> PositionLe(Position(x), Position(y))
    ensures Sorted([x] + t)
  {
  }

  /** Every element of `t`, a permutation of `rest` plus `e`, is at or above `head`. */
  lemma InsertedBound(head: RawEvent, e: RawEvent, rest: seq<RawEvent>, t: seq<RawEvent>)
    requires Sorted([head] + rest)
    requires !PositionLe(Position(e), Position(head))
    requires multiset(t) == multiset(rest) + multiset{e}
    ensures forall y :: y in t ==> PositionLe(Position(head), Position(y))
  {
    forall y | y in t ensures PositionLe(Position(head), Position(y)) {
      assert y in multiset(t);
      if y != e {
        assert y in multiset(rest);
        var k :| 0 <= k < |rest| && rest[k] == y;
        assert ([head] + rest)[0] == head && ([head] + rest)[k + 1] == y;
      }
    }
  }

  /** Insertion sort: the batch in ascending `(blockNumber, logIndex)` order. */
  function SortEvents(s: seq<RawEvent>): (r: seq<RawEvent>)
    ensures Sorted(r)
    ensures multiset(r) == multiset(s)
  {
    if s == [] then []
    else
      assert s == [s[0]] + s[1..];
      Insert(s[0], SortEvents(s[1..]))
  }

  /** The events of `s` that sit at position `pos`, in their order in `s`. */
  function AtPosition(s: seq<RawEvent>, pos: (int, int)): seq<RawEvent> {
    if s == [] then []
    else (if Position(s[0]) == pos then [s[0]] else []) + AtPosition(s[1..], pos)
  }

  lemma {:induction false} InsertKeepsTies(e: RawEvent, s: seq<RawEvent>, pos: (int, int))
    requires Sorted(s)
    ensures AtPosition(Insert(e, s), pos)
         == (if Position(e) == pos then [e] else []) + AtPosition(s, pos)
  {
    if s == [] || PositionLe(Position(e), Position(s[0])) {
      assert ([e] + s)[1..] == s;
    } else {
      InsertKeepsTies(e, s[1..], pos);
      assert ([s[0]] + Insert(e, s[1..]))[1..] == Insert(e, s[1..]);
    }
  }

  /** The sort is stable: events that share a position keep their fetched order. */
  lemma {:induction false} SortIsStable(s: seq<RawEvent>, pos: (int, int))
    ensures AtPosition(SortEvents(s), pos) == AtPosition(s, pos)
  {
    if s != [] {
      SortIsStable(s[1..], pos);
      InsertKeepsTies(s[0], SortEvents(s[1..]), pos);
    }
  }

  // ---------------------------------------------------------------------------------
  // One event: `process_event`
  // ---------------------------------------------------------------------------------

  /**
   * What `process_event` does with one event: return `None` for a key already marked,
   * raise `EventProcessingError` (wrapping `InvalidEventError`) for a falsy field, or
   * return the record.
   */
  datatype ProcessOutcome = Skipped | Processed(event: ProcessedEvent) | ProcessingError

  function Process(processed: set<EventKey>, e: RawEvent, priceUsd: Option<real>): (r: ProcessOutcome)
    ensures KeyOf(e) in processed ==> r.Skipped?
    ensures KeyOf(e) !in processed && !AllFieldsTruthy(e) ==> r.ProcessingError?
    ensures KeyOf(e) !in processed && AllFieldsTruthy(e) ==> r == Processed(Parse(e, priceUsd))
    ensures r.Processed? ==> Unparse(r.event) == e && AllFieldsTruthy(e) && KeyOf(e) !in processed
  {
    if KeyOf(e) in processed then Skipped
    else if !AllFieldsTruthy(e) then ProcessingError
    else Processed(Parse(e, priceUsd))
  }

  class EventProcessor {
    const store: StateManager

    constructor (store: StateManager)
      ensures this.store == store
    {
      this.store := store;
    }

    /** `priceUsd` is the price oracle's answer for this call. */
    method ProcessEvent(e: RawEvent, priceUsd: Option<real>) returns (r: ProcessOutcome)
      ensures r == Process(store.processed, e, priceUsd)
    {
      var seen := store.IsProcessed(KeyOf(e));
      if seen {
        return Skipped;
      }
      if !AllFieldsTruthy(e) {
        return ProcessingError;
      }
      r := Processed(Parse(e, priceUsd));
    }
  }

  // ---------------------------------------------------------------------------------
  // A whole batch: the per-event loop of `_poll_and_process_events`
  // ---------------------------------------------------------------------------------

  /** The dedup set and the records handed to the destination action so far. */
  datatype Batch = Batch(processed: set<EventKey>, dispatched: seq<ProcessedEvent>)

  /**
   * One loop iteration: on a record, act and then mark its key; a skip or a caught
   * `EventProcessingError` changes nothing and the loop goes on.
   */
  function Step(b: Batch, e: RawEvent, priceUsd: Option<real>): (r: Batch)
    ensures KeyOf(e) !in b.processed && AllFieldsTruthy(e)
            ==> r == Batch(b.processed + {KeyOf(e)}, b.dispatched + [Parse(e, priceUsd)])
    ensures KeyOf(e) in b.processed || !AllFieldsTruthy(e) ==> r == b
  {
    match Process(b.processed, e, priceUsd)
    case Processed(p) => Batch(b.processed + {KeyOfProcessed(p)}, b.dispatched + [p])
    case _ => b
  }

  /**
   * The loop over an (already sorted) batch; `quote(i)` is the oracle's answer while
   * handling the `i`-th event.
   */
  function Reconcile(processed: set<EventKey>, batch: seq<RawEvent>, quote: nat -> Option<real>): (r: Batch)
    ensures processed <= r.processed
    ensures |r.dispatched| <= |batch|
    decreases |batch|
  {
    if batch == [] then Batch(processed, [])
    else
      var n := |batch| - 1;
      Step(Reconcile(processed, batch[..n], quote), batch[n], quote(n))
  }

  /** The keys of the valid events of a batch. */
  function ValidKeys(batch: seq<RawEvent>): set<EventKey> {
    set e | e in batch && AllFieldsTruthy(e) :: KeyOf(e)
  }

  predicate DispatchOrdered(d: seq<ProcessedEvent>) {
    forall i, j :: 0 <= i < j < |d| ==> PositionLe(PositionOfProcessed(d[i]), PositionOfProcessed(d[j]))
  }

  lemma ValidKeysSnoc(batch: seq<RawEvent>, e: RawEvent)
    ensures ValidKeys(batch + [e]) == ValidKeys(batch) + (if AllFieldsTruthy(e) then {KeyOf(e)} else {})
  {
  }

  lemma KeySetSnoc(d: seq<ProcessedEvent>, p: ProcessedEvent)
    ensures KeySet(d + [p]) == KeySet(d) + {KeyOfProcessed(p)}
  {
  }

  /**
   * What a batch does to the dedup set: every key it marks belongs to a record that was
   * dispatched, no dispatched key was marked before or is dispatched twice, and the keys
   * dispatched are exactly those of the valid events not marked before.
   */
  lemma {:induction false} ReconcileAccounting(processed: set<EventKey>, batch: seq<RawEvent>, quote: nat -> Option<real>)
    ensures var b := Reconcile(processed, batch, quote);
      && b.processed == processed + KeySet(b.dispatched)
      && KeySet(b.dispatched) !! processed
      && DistinctKeys(b.dispatched)
      && KeySet(b.dispatched) == ValidKeys(batch) - processed
      && forall p :: p in b.dispatched ==> Unparse(p) in batch && AllFieldsTruthy(Unparse(p))
    decreases |batch|
  {
    if batch == [] {
      assert ValidKeys(batch) == {};
    } else {
      var n := |batch| - 1;
      var pre, e := batch[..n], batch[n];
      assert batch == pre + [e];
      ReconcileAccounting(processed, pre, quote);
      ValidKeysSnoc(pre, e);
      var b0 := Reconcile(processed, pre, quote);
      match Process(b0.processed, e, quote(n))
      case Processed(p) =>
        KeySetSnoc(b0.dispatched, p);
        assert forall x :: x in b0.dispatched + [p] ==> x in b0.dispatched || x == p;
      case Skipped =>
      case ProcessingError =>
    }
  }

  /** Records reach the destination action in ascending `(blockNumber, logIndex)` order. */
  lemma {:induction false} ReconcileOrdered(processed: set<EventKey>, batch: seq<RawEvent>, quote: nat -> Option<real>)
    requires Sorted(batch)
    ensures DispatchOrdered(Reconcile(processed, batch, quote).dispatched)
    decreases |batch|
  {
    if batch != [] {
      var n := |batch| - 1;
      var pre, e := batch[..n], batch[n];
      ReconcileOrdered(processed, pre, quote);
      ReconcileAccounting(processed, pre, quote);
      var b0 := Reconcile(processed, pre, quote);
      match Process(b0.processed, e, quote(n))
      case Processed(p) =>
        forall i | 0 <= i < |b0.dispatched|
          ensures PositionLe(PositionOfProcessed(b0.dispatched[i]), PositionOfProcessed(p))
        {
          var u := Unparse(b0.dispatched[i]);
          assert u in pre;
          var k :| 0 <= k < |pre| && pre[k] == u;
          assert batch[k] == u;
        }
      case Skipped =>
      case ProcessingError =>
    }
  }

  /**
   * Numeric (or absent) price answers only fill in the USD estimate: they change neither
   * the dedup set nor which events are acted upon, nor their order. A malformed price
   * response, which makes `process_event` fail, has no counterpart in `Option<real>`.
   */
  lemma {:induction false} ReconcileIgnoresQuotes(processed: set<EventKey>, batch: seq<RawEvent>,
                                                  quote1: nat -> Option<real>, quote2: nat -> Option<real>)
    ensures Reconcile(processed, batch, quote1).processed == Reconcile(processed, batch, quote2).processed
    ensures Sources(Reconcile(processed, batch, quote1).dispatched)
         == Sources(Reconcile(processed, batch, quote2).dispatched)
    decreases |batch|
  {
    if batch != [] {
      var n := |batch| - 1;
      ReconcileIgnoresQuotes(processed, batch[..n], quote1, quote2);
      var b1 := Reconcile(processed, batch[..n], quote1);
      var b2 := Reconcile(processed, batch[..n], quote2);
      match Process(b1.processed, batch[n], quote1(n))
      case Processed(p1) =>
        var p2 := Process(b2.processed, batch[n], quote2(n)).event;
        SourcesSnoc(b1.dispatched, p1);
        SourcesSnoc(b2.dispatched, p2);
      case Skipped =>
      case ProcessingError =>
    }
  }

  /** A permutation of a batch has the same valid keys. */
  lemma PermutationKeepsValidKeys(a: seq<RawEvent>, b: seq<RawEvent>)
    requires multiset(a) == multiset(b)
    ensures ValidKeys(a) == ValidKeys(b)
  {
    assert forall x :: x in a <==> x in b by {
      forall x ensures x in a <==> x in b {
        assert x in a <==> x in multiset(a);
        assert x in b <==> x in multiset(b);
      }
    }
  }

  /** A fully populated event at `(block, logIndex)`, for the example below. */
  function LockedAt(block: int, logIndex: int): RawEvent {
    RawEvent(block, "0xab", logIndex, Some("0x01"), Some("0x02"), Some("0x03"), Some(5), Some(2), Some(7))
  }

  /** Events fetched at (10, 2), (9, 0), (10, 0) are handled in the order (9, 0), (10, 0), (10, 2). */
  lemma OrderingExample()
    ensures SortEvents([LockedAt(10, 2), LockedAt(9, 0), LockedAt(10, 0)])
         == [LockedAt(9, 0), LockedAt(10, 0), LockedAt(10, 2)]
  {
  }

  /**
   * In that batch the two events with log index 0 fail validation, so only (10, 2) is
   * acted upon.
   */
  lemma LogIndexZeroExample(quote: nat -> Option<real>)
    ensures Sources(Reconcile({}, [LockedAt(9, 0), LockedAt(10, 0), LockedAt(10, 2)], quote).dispatched)
         == [LockedAt(10, 2)]
  {
    var batch := [LockedAt(9, 0), LockedAt(10, 0), LockedAt(10, 2)];
    assert batch[..2] == [LockedAt(9, 0), LockedAt(10, 0)];
    assert batch[..2][..1] == [LockedAt(9, 0)];
    assert batch[..2][..1][..0] == [];
    assert Reconcile({}, []  , quote) == Batch({}, []);
    assert Reconcile({}, batch[..2][..1], quote) == Batch({}, []);
    assert Reconcile({}, batch[..2], quote) == Batch({}, []);
    var p := Parse(LockedAt(10, 2), quote(2));
    assert Reconcile({}, batch, quote).dispatched == [p];
    SourcesSnoc([], p);
  }
}
