/** The append-only session ledger (src/domain/ledger.rs). */
module Ledger {
  import opened Domain

  /** The sequence number that follows a list of events. */
  function NextSeq(events: seq<LedgerEvent>): nat {
    if events == [] then 1 else SaturatingInc(events[|events| - 1].seqNo)
  }

  /** Newest metadata value stored under `key`. */
  function LatestMetadata(events: seq<LedgerEvent>, key: MetadataKey): Option<MetadataValue> {
    if events == [] then None
    else
      var last := events[|events| - 1].payload;
      if last.Metadata? && last.key == key then Some(last.value)
      else LatestMetadata(events[..|events| - 1], key)
  }

  /** Number of the last event above `after`. */
  function LastAfter(events: seq<LedgerEvent>, after: nat): Option<nat> {
    if events == [] then None
    else if events[|events| - 1].seqNo > after then Some(events[|events| - 1].seqNo)
    else LastAfter(events[..|events| - 1], after)
  }

  /** Number of user messages, as a `u64`. */
  function CountUserMessages(events: seq<LedgerEvent>): nat {
    if events == [] then 0
    else
      var count := CountUserMessages(events[..|events| - 1]);
      if events[|events| - 1].payload.UserMessage? then SaturatingInc(count) else count
  }

  /** Sequence numbers start at 1 and strictly increase. */
  ghost predicate Sorted(events: seq<LedgerEvent>) {
    && (forall i :: 0 <= i < |events| ==> 1 <= events[i].seqNo)
    && (forall i, j :: 0 <= i < j < |events| ==> events[i].seqNo < events[j].seqNo)
  }

  class SessionLedger {
    var events: seq<LedgerEvent>
    var nextSeq: nat

    constructor ()
      ensures events == [] && nextSeq == NextSeq([])
    {
      events, nextSeq := [], 1;
    }

    constructor FromEvents(loaded: seq<LedgerEvent>)
      ensures events == loaded && nextSeq == NextSeq(loaded)
      ensures nextSeq == if loaded == [] then 1
                         else if loaded[|loaded| - 1].seqNo < U64_MAX then loaded[|loaded| - 1].seqNo + 1 else U64_MAX
    {
      events := loaded;
      nextSeq := if loaded == [] then 1 else SaturatingInc(loaded[|loaded| - 1].seqNo);
    }

    method Append(event: LedgerEvent)
      modifies this
      ensures events == old(events) + [event] && nextSeq == NextSeq(events)
      ensures nextSeq == if event.seqNo < U64_MAX then event.seqNo + 1 else U64_MAX
    {
      nextSeq := SaturatingInc(event.seqNo);
      events := events + [event];
    }
  }

  /** Appending the event the ledger numbers next keeps the ledger sorted exactly when the last
      number has not reached the end of `u64`; at the end the number is handed out twice. */
  lemma AppendKeepsSorted(events: seq<LedgerEvent>, payload: Payload)
    requires Sorted(events)
    ensures Sorted(events + [LedgerEvent(NextSeq(events), payload)])
       <==> (events == [] || events[|events| - 1].seqNo < U64_MAX)
  {
    var extended := events + [LedgerEvent(NextSeq(events), payload)];
    if events != [] {
      var last := |events| - 1;
      assert extended[last] == events[last] && extended[|events|].seqNo == NextSeq(events);
    }
  }
}
