/**
 * The in-memory dedup store: the set of keys of events whose destination action has
 * returned. Keys are only ever added.
 */
module StateStore {
  import opened BridgeTypes

  class StateManager {
    var processed: set<EventKey>

    constructor ()
      ensures processed == {}
    {
      processed := {};
    }

    method IsProcessed(key: EventKey) returns (b: bool)
      ensures b <==> key in processed
    {
      b := key in processed;
    }

    /** Adds `key`; no other key changes membership. */
    method MarkAsProcessed(key: EventKey)
      modifies this
      ensures processed == old(processed) + {key}
      ensures key in processed
    {
      processed := processed + {key};
    }
  }
}
