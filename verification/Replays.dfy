/** When the history, folded, gives back what the service holds. With monotonic tickets it always
    does; with broken ones it does as long as the holds on the one ticket there is lapse together. */
module Replays {
  import opened Types
  import opened Histories
  import opened Locks
  import opened HoldLists
  import opened Runs
  import opened ServiceCalls
  import opened Growth
  import opened Checkers
  import opened Fencing
  import opened TicketRuns
  import opened FaultyRuns
  import opened Holds
  import opened Scenarios

  /** Folding the log gives the held tickets. */
  ghost predicate Tracks(s: Service) {
    Replay(s.log).Keys == Tickets(s.held)
  }

  ghost predicate Together(held: seq<HeldBy>) {
    forall g, h | g in held && h in held :: g.deadline == h.deadline
  }

  /** Never were two tickets issued. */
  ghost predicate IssuedOnce(log: Log) {
    forall i, j | 0 <= i < j < |log| :: !(log[i].event.TicketIssued? && log[j].event.TicketIssued?)
  }

  ghost predicate IssuedNever(log: Log) {
    forall i | 0 <= i < |log| :: !log[i].event.TicketIssued?
  }

  /** There is one hold at a time, or all of them lapse together. */
  ghost predicate InStep(c: Setup, log: Log) {
    !c.faults.grantTwice || c.lease <= 1 || IssuedOnce(log)
  }

  lemma {:induction false} InStepBefore(c: Setup, log: Log, log': Log)
    requires InStep(c, log') && log <= log'
    ensures InStep(c, log)
  {
    assert forall i | 0 <= i < |log| :: log'[i] == log[i];
  }

  // ---------- Broken tickets

  /** What the history should replay to: the one ticket, with whoever took it last. */
  function Standing(held: seq<HeldBy>): map<nat, HolderId> {
    if held == [] then map[] else map[1 := held[|held| - 1].holder]
  }

  ghost predicate Follows(s: Service) {
    Together(s.held) && Replay(s.log) == Standing(s.held)
  }

  ghost predicate BrokenOk(c: Setup, s: Service) {
    && Stuck(s) && Shape(c, s)
    && Counted(s)
    && (InStep(c, s.log) ==> Follows(s))
  }

  lemma {:induction false} AllGone(held: seq<HeldBy>, now: nat)
    requires forall h | h in held :: h.deadline <= now
    ensures Alive(held, now) == [] && Lapsed(held, now) == held
  {
    if held == [] {
    } else {
      AllGone(held[..|held| - 1], now);
      assert held == held[..|held| - 1] + [held[|held| - 1]];
    }
  }

  /** Holds that lapse together are all there or all gone. */
  lemma {:induction false} AllOrNone(held: seq<HeldBy>, now: nat)
    requires Together(held)
    ensures (Alive(held, now) == held && Lapsed(held, now) == []) || (Alive(held, now) == [] && Lapsed(held, now) == held)
  {
    hide Alive, Lapsed;
    assert held == [] || held[0] in held;
    if held == [] || held[0].deadline <= now {
      AllGone(held, now);
    } else {
      AllYoung(held, now);
    }
  }

  lemma {:induction false} OneTicket(held: seq<HeldBy>)
    requires forall h | h in held :: h.ticket == 1
    ensures Tickets(held) == if held == [] then {} else {1}
  {
    assert held == [] || held[0] in held;
  }

  lemma {:induction false} SweptFollows(s: Service)
    requires Follows(s) && Stuck(s)
    ensures Follows(Swept(s))
  {
    AllOrNone(s.held, s.now);
    OneTicket(s.held);
    ReplayExpiries(s.log, s.now, Lapsed(s.held, s.now));
    hide Replay;
  }

  lemma {:induction false} GrantedFollows(c: Setup, s: Service, holder: HolderId)
    requires Follows(s) && Stuck(s) && c.faults.nonMonotonicTickets
    requires forall h | h in s.held :: h.deadline == s.now + c.lease
    ensures Follows(Granted(c, s, holder).0)
  {
    hide Replay;
    var issued := Append(s.log, s.now, TicketIssued(1));
    ReplayNext(s.log, s.now, TicketIssued(1));
    ReplayNext(issued, s.now, TakeGranted(holder, 1));
  }

  lemma {:induction false} ReturnedFollows(s: Service, holding: Holding)
    requires Follows(s) && Stuck(s)
    ensures Follows(Returned(s, holding))
  {
    hide Replay, Without;
    ReplayNext(s.log, s.now, GiveBack(holding.holder, holding.ticket));
    WithoutMeans(s.held, holding.ticket);
    if holding.ticket == 1 {
      NoneLeft(s.held);
    } else {
      NothingOn(s.held, holding.ticket);
    }
  }

  lemma {:induction false} NoneLeft(held: seq<HeldBy>)
    requires forall h | h in held :: h.ticket == 1
    ensures Without(held, 1) == []
  {
    var left := Without(held, 1);
    assert left == [] || left[0] in left;
    WithoutMeans(held, 1);
  }

  lemma {:induction false} NothingOn(held: seq<HeldBy>, ticket: nat)
    requires forall h | h in held :: h.ticket != ticket
    ensures Without(held, ticket) == held
  {
    if held == [] {
    } else {
      var rest, last := held[..|held| - 1], held[|held| - 1];
      assert held == rest + [last];
      assert last in held && forall h | h in rest :: h in held;
      NothingOn(rest, ticket);
    }
  }

  /** A live hold extended among others that lapse with it: for at most one tick, or alone. */
  lemma {:induction false} ExtendedFollows(c: Setup, s: Service, i: nat)
    requires Follows(s) && Shape(c, s) && i < |s.held| && s.now < s.held[i].deadline
    requires c.lease <= 1 || |s.held| <= 1
    ensures Follows(Extended(c, s, i))
  {
    var held' := Extended(c, s, i).held;
    forall h | h in held'
      ensures h.deadline == s.now + c.lease
    {
      var k :| 0 <= k < |held'| && held'[k] == h;
      assert s.held[k] in s.held && s.held[i] in s.held;
    }
  }

  /** What lets the next grant lapse together with the holds there are. */
  lemma {:induction false} GrantInStep(c: Setup, s: Service, holder: HolderId)
    requires BrokenOk(c, s) && c.faults.nonMonotonicTickets && MayGrant(c, s)
    requires InStep(c, Granted(c, s, holder).0.log)
    ensures InStep(c, s.log)
    ensures forall h | h in s.held :: h.deadline == s.now + c.lease
  {
    var log' := Granted(c, s, holder).0.log;
    assert s.log <= log';
    InStepBefore(c, s.log, log');
    AliveMeans(s.held, s.now);
    if c.faults.grantTwice && c.lease > 1 {
      assert log'[|s.log|].event.TicketIssued?;
      assert forall i | 0 <= i < |s.log| :: log'[i] == s.log[i];
    }
  }

  lemma {:induction false} CallFollows(c: Setup, s: Service, call: Call)
    requires BrokenOk(c, s) && Follows(s) && c.faults.nonMonotonicTickets && InStep(c, Called(c, s, call).log)
    requires InStep(c, s.log)
    ensures Follows(Called(c, s, call))
  {
    hide Swept, Granted, Returned, Extended, FirstOn, Replay, InStep, Follows;
    match call
    case Tick(_) => SameFollows(s, Called(c, s, call));
    case Sweep => SweptFollows(s);
    case Note(event) =>
      if Neutral(event) {
        NotedFollows(s, event);
      }
    case Grant(holder) =>
      if MayGrant(c, s) {
        GrantInStep(c, s, holder);
        GrantedFollows(c, s, holder);
      }
    case GiveUp(holding) => ReturnedFollows(s, holding);
    case Extend(ticket) =>
      if FirstOn(s.held, ticket).Some? && s.now < s.held[FirstOn(s.held, ticket).value].deadline {
        FewOrShort(c, s);
        ExtendedFollows(c, s, FirstOn(s.held, ticket).value);
      }
    case Raise => SameFollows(s, Called(c, s, call));
    case Revoke => ClearedFollows(s);
    case ExpireAll => ExpiredFollows(s);
  }

  lemma {:induction false} FewOrShort(c: Setup, s: Service)
    requires BrokenOk(c, s) && InStep(c, s.log)
    ensures c.lease <= 1 || |s.held| <= 1
  {
  }

  lemma {:induction false} SameFollows(s: Service, s': Service)
    requires Follows(s) && s'.held == s.held && s'.log == s.log
    ensures Follows(s')
  {
  }

  lemma {:induction false} NotedFollows(s: Service, event: Event)
    requires Follows(s) && Neutral(event)
    ensures Follows(Record(s, event))
  {
    ReplayNext(s.log, s.now, event);
    hide Replay;
  }

  lemma {:induction false} ClearedFollows(s: Service)
    ensures Follows(Cleared(s))
  {
    ReplayNext(s.log, s.now, Revoked(Some(s.nextTicket + 1)));
    hide Replay;
  }

  lemma {:induction false} ExpiredFollows(s: Service)
    requires Follows(s) && Stuck(s)
    ensures Follows(ForceExpired(s))
  {
    ReplayExpiries(s.log, s.now, s.held);
    OneTicket(s.held);
    hide Replay;
  }

  /** How many holds there can be for the tickets issued. */
  ghost predicate Counted(s: Service) {
    && (IssuedNever(s.log) ==> s.held == [])
    && (IssuedOnce(s.log) ==> |s.held| <= 1)
  }

  lemma {:induction false} NoMoreHolds(c: Setup, s: Service, call: Call)
    requires !call.Grant?
    ensures |Called(c, s, call).held| <= |s.held|
  {
    AliveMeans(s.held, s.now);
    hide Alive, Lapsed, Without, FirstOn, Expiries, AppendAll;
    if call.GiveUp? {
      WithoutMeans(s.held, call.holding.ticket);
    }
  }

  lemma {:induction false} GrantCounted(c: Setup, s: Service, holder: HolderId)
    requires Counted(s)
    ensures Counted(Granted(c, s, holder).0)
  {
    var log' := Granted(c, s, holder).0.log;
    assert log'[|s.log|].event.TicketIssued?;
    assert forall i | 0 <= i < |s.log| :: log'[i] == s.log[i];
    assert IssuedOnce(log') ==> IssuedNever(s.log);
  }

  lemma {:induction false} CallCounted(c: Setup, s: Service, call: Call)
    requires Counted(s)
    ensures Counted(Called(c, s, call))
  {
    if call.Grant? {
      GrantCounted(c, s, call.holder);
    } else {
      CallGrows(c, s, call);
      NoMoreHolds(c, s, call);
      hide Called, Counted;
    }
  }

  lemma {:induction false} CallBroken(c: Setup, s: Service, call: Call)
    requires BrokenOk(c, s) && c.faults.nonMonotonicTickets
    ensures BrokenOk(c, Called(c, s, call))
  {
    hide Called, Follows, Stuck, Shape, InStep, Counted;
    CallStuck(c, s, call);
    CallShape(c, s, call);
    CallCounted(c, s, call);
    if InStep(c, Called(c, s, call).log) {
      CallGrows(c, s, call);
      InStepBefore(c, s.log, Called(c, s, call).log);
      CallFollows(c, s, call);
    }
  }

  // ---------- Either way

  /** The invariant behind replaying: one counter orders everything, or there is only one ticket. */
  ghost predicate TurnsOk(c: Setup, s: Service) {
    if c.faults.nonMonotonicTickets then BrokenOk(c, s) else TicketsOk(s)
  }

  /** What replaying asks for: tickets that count, or holds that lapse together. */
  ghost predicate Replayable(c: Setup, log: Log) {
    c.faults.nonMonotonicTickets ==> InStep(c, log)
  }

  lemma {:induction false} TurnsTrack(c: Setup, s: Service)
    requires TurnsOk(c, s) && Replayable(c, s.log)
    ensures Tracks(s)
  {
    if c.faults.nonMonotonicTickets {
      OneTicket(s.held);
    }
  }

  lemma {:induction false} ReachesTurns(c: Setup, s: Service, s': Service)
    requires Reaches(c, s, s') && TurnsOk(c, s)
    ensures TurnsOk(c, s')
  {
    hide TicketsOk, BrokenOk, Reaches, Called;
    forall x, call | TurnsOk(c, x)
      ensures TurnsOk(c, Called(c, x, call))
    {
      if c.faults.nonMonotonicTickets {
        CallBroken(c, x, call);
      } else {
        CallTickets(c, x, call);
      }
    }
    ReachesKeeps(c, s, s', ANYTHING, x => TurnsOk(c, x));
  }

  lemma {:induction false} RunTurns(c: Setup, file: Option<Content>, leftover: Option<Content>, ops: seq<Op>)
    ensures TurnsOk(c, Run(c, Start(file, leftover), ops).world.svc)
  {
    assert TurnsOk(c, FRESH_SERVICE);
    hide TurnsOk, Reaches, Run;
    RunReaches(c, Start(file, leftover), ops);
    ReachesTurns(c, FRESH_SERVICE, Run(c, Start(file, leftover), ops).world.svc);
  }

  /** Folding the log gives exactly the held tickets, unless broken tickets meet double grants and
      leases of more than one tick, and two tickets have been issued. */
  lemma {:induction false} HistoryTracksTheLock(
    c: Setup, file: Option<Content>, leftover: Option<Content>, ops: seq<Op>)
    requires Replayable(c, Run(c, Start(file, leftover), ops).world.svc.log)
    ensures Tracks(Run(c, Start(file, leftover), ops).world.svc)
  {
    hide Run, Tracks, TurnsOk, InStep;
    RunTurns(c, file, leftover, ops);
    TurnsTrack(c, Run(c, Start(file, leftover), ops).world.svc);
  }

  /** Folding the log gives exactly the service's holds, the same tickets on the same holders, unless
      two holds can be on one ticket. */
  lemma {:induction false} HistoryReplaysToTheLock(
    c: Setup, file: Option<Content>, leftover: Option<Content>, ops: seq<Op>)
    requires !(c.faults.nonMonotonicTickets && c.faults.grantTwice && c.lease > 0)
    ensures var s := Run(c, Start(file, leftover), ops).world.svc;
            && Mirrors(Replay(s.log), s.held)
            && Ascending(s.held)
  {
    hide Run, Replay;
    var s := Run(c, Start(file, leftover), ops).world.svc;
    RunTurns(c, file, leftover, ops);
    HistoryTracksTheLock(c, file, leftover, ops);
  }
}
