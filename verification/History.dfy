/** The append-only, totally ordered log of everything the harness and the lock service did. */
module Histories {
  import opened Types

  datatype Event =
    | TakeRequested(holder: HolderId)
    | TakeGranted(holder: HolderId, ticket: nat)
    | TicketIssued(ticket: nat)
    | Read(holder: HolderId, version: nat)
    | WriteAttempted(holder: HolderId, ticket: nat, expected: nat)
    | WriteAccepted(holder: HolderId, ticket: nat, version: nat, content: Content)
    | WriteRefused(holder: HolderId, reason: Refusal, content: Content)
    | GiveBack(holder: HolderId, ticket: nat)
    | LeaseExpired(holder: HolderId, ticket: nat)
    | Revoked(barrier: Option<nat>)
    | PhaseTimeout(holder: HolderId)
    | CeilingReached(holder: HolderId)
    | AgentFinished(holder: HolderId)
    | AgentWedged(holder: HolderId)

  /** `seqNo` is the position in the total order; `at` is the clock when it was recorded. */
  datatype Entry = Entry(seqNo: nat, at: nat, event: Event)

  type Log = seq<Entry>

  /** The sequence number of an entry is its index. */
  ghost predicate Numbered(log: Log) {
    forall i | 0 <= i < |log| :: log[i].seqNo == i
  }

  function Append(log: Log, at: nat, event: Event): Log {
    log + [Entry(|log|, at, event)]
  }

  /** Records several events, in order, at one instant. */
  function AppendAll(log: Log, at: nat, events: seq<Event>): Log {
    if events == [] then log
    else Append(AppendAll(log, at, events[..|events| - 1]), at, events[|events| - 1])
  }

  lemma {:induction false} AppendAllContents(log: Log, at: nat, events: seq<Event>)
    ensures var r := AppendAll(log, at, events);
            && |r| == |log| + |events|
            && log <= r
            && forall i | |log| <= i < |r| :: r[i] == Entry(i, at, events[i - |log|])
  {
    if events == [] {
    } else {
      var shorter := AppendAll(log, at, events[..|events| - 1]);
      AppendAllContents(log, at, events[..|events| - 1]);
      assert AppendAll(log, at, events) == shorter + [Entry(|shorter|, at, events[|events| - 1])];
    }
  }

  class History {
    var entries: Log

    ghost predicate Valid()
      reads this
    {
      Numbered(entries)
    }

    constructor ()
      ensures Valid() && entries == []
    {
      entries := [];
    }

    method Record(at: nat, event: Event)
      modifies this
      ensures entries == Append(old(entries), at, event)
      ensures old(Valid()) ==> Valid()
    {
      var seqNo := |entries|;
      entries := entries + [Entry(seqNo, at, event)];
    }
  }
}
