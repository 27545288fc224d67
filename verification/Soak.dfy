/** The soak, for all runs: once the leases have lapsed, every atomic run with monotonic tickets
    passes all the properties, whatever else is made to go wrong. */
module Soaks {
  import opened Types
  import opened Histories
  import opened Stores
  import opened Locks
  import opened HoldLists
  import opened Runs
  import opened ServiceCalls
  import opened Checkers
  import opened CheckerMeaning
  import opened SplitRuns
  import opened Fencing
  import opened Replays
  import opened TicketVerdicts
  import opened AtomicRuns
  import opened Holds
  import opened Refusals
  import opened Endings

  // ---------- Leaks, under every fault

  /** Whatever the history still counts as held, the service still holds. */
  ghost predicate Covered(s: Service) {
    Replay(s.log).Keys <= Tickets(s.held)
  }

  lemma {:induction false} SweptCovered(s: Service)
    requires Covered(s)
    ensures Covered(Swept(s))
  {
    hide Replay;
    ReplayExpiries(s.log, s.now, Lapsed(s.held, s.now));
    AliveMeans(s.held, s.now);
    LapsedMeans(s.held, s.now);
  }

  lemma {:induction false} RecordCovered(s: Service, event: Event)
    requires Covered(s) && Neutral(event)
    ensures Covered(Record(s, event))
  {
    ReplayNext(s.log, s.now, event);
  }

  lemma {:induction false} GrantCovered(c: Setup, s: Service, holder: HolderId)
    requires Covered(s)
    ensures Covered(Granted(c, s, holder).0)
  {
    hide Replay;
    var (issued, ticket) := Issued(c, s);
    ReplayNext(s.log, s.now, TicketIssued(ticket));
    ReplayNext(issued.log, s.now, TakeGranted(holder, ticket));
    var held' := issued.held + [HeldBy(holder, ticket, s.now + c.lease)];
    assert held'[|held'| - 1] in held' && held'[..|held'| - 1] == s.held;
    TicketsOfLast(held');
  }

  lemma {:induction false} RenewalCovers(held: seq<HeldBy>, i: nat, deadline: nat)
    requires i < |held|
    ensures Tickets(held) <= Tickets(held[i := held[i].(deadline := deadline)])
  {
    var held' := held[i := held[i].(deadline := deadline)];
    forall h | h in held
      ensures h.ticket in Tickets(held')
    {
      var j :| 0 <= j < |held| && held[j] == h;
      assert held'[j] in held';
    }
  }

  lemma {:induction false} CallCovered(c: Setup, s: Service, call: Call)
    requires Covered(s)
    ensures Covered(Called(c, s, call))
  {
    hide Swept, Without, FirstOn, Granted, Replay, Expiries, AppendAll;
    match call
    case Tick(_) =>
    case Sweep => SweptCovered(s);
    case Note(event) =>
      if Neutral(event) {
        RecordCovered(s, event);
      }
    case Grant(holder) => GrantCovered(c, s, holder);
    case GiveUp(holding) =>
      WithoutMeans(s.held, holding.ticket);
      ReplayNext(s.log, s.now, GiveBack(holding.holder, holding.ticket));
    case Extend(ticket) =>
      if FirstOn(s.held, ticket).Some? {
        RenewalCovers(s.held, FirstOn(s.held, ticket).value, s.now + c.lease);
      }
    case Raise =>
    case Revoke => ReplayNext(s.log, s.now, Revoked(Some(s.nextTicket + 1)));
    case ExpireAll => ReplayExpiries(s.log, s.now, s.held);
  }

  lemma {:induction false} RunCovered(c: Setup, file: Option<Content>, leftover: Option<Content>, ops: seq<Op>)
    ensures Covered(Run(c, Start(file, leftover), ops).world.svc)
  {
    assert Covered(FRESH_SERVICE);
    hide Covered, Reaches, Run, Called;
    RunReaches(c, Start(file, leftover), ops);
    forall x, call | Covered(x)
      ensures Covered(Called(c, x, call))
    {
      CallCovered(c, x, call);
    }
    ReachesKeeps(c, FRESH_SERVICE, Run(c, Start(file, leftover), ops).world.svc, ANYTHING, x => Covered(x));
  }

  /** The clock passes the last lease, and some operation sweeps. */
  function Settled(ops: seq<Op>, wait: nat): seq<Op> {
    ops + [Advance(wait)] + [Probe]
  }

  lemma {:induction false} SettledRun(
    c: Setup, file: Option<Content>, leftover: Option<Content>, ops: seq<Op>, wait: nat)
    ensures var rs := Run(c, Start(file, leftover), ops);
            var rs' := Run(c, Start(file, leftover), Settled(ops, wait));
            && rs'.world.svc == Swept(rs.world.svc.(now := rs.world.svc.now + wait))
            && rs'.world.store == rs.world.store
  {
    hide Swept;
    var waited := ops + [Advance(wait)];
    assert waited[..|ops|] == ops;
    assert Settled(ops, wait)[..|waited|] == waited;
    assert Run(c, Start(file, leftover), waited) == Step(c, Run(c, Start(file, leftover), ops), Advance(wait));
    assert Run(c, Start(file, leftover), Settled(ops, wait)) == Step(c, Run(c, Start(file, leftover), waited), Probe);
  }

  /** Once one lease has passed since anything was done, nothing is held. */
  lemma {:induction false} NothingIsHeld(
    c: Setup, file: Option<Content>, leftover: Option<Content>, ops: seq<Op>, wait: nat)
    requires c.lease <= wait
    ensures Run(c, Start(file, leftover), Settled(ops, wait)).world.svc.held == []
  {
    hide Run, Shape, Alive, Lapsed, Expiries, AppendAll;
    SettledRun(c, file, leftover, ops, wait);
    RunShape(c, file, leftover, ops);
    AllLapse(c, Run(c, Start(file, leftover), ops).world.svc, wait);
  }

  lemma {:induction false} AllLapse(c: Setup, s: Service, wait: nat)
    requires Shape(c, s) && c.lease <= wait
    ensures Alive(s.held, s.now + wait) == []
  {
    var alive := Alive(s.held, s.now + wait);
    assert alive == [] || alive[0] in alive;
    AliveMeans(s.held, s.now + wait);
  }

  /** No lock leaks. Whatever was done, and whatever the faults, once a lease has passed and a sweep
      has run every grant has its end in the history and P5 passes. */
  lemma {:induction false} NothingLeaks(
    c: Setup, file: Option<Content>, leftover: Option<Content>, ops: seq<Op>, wait: nat)
    requires c.lease <= wait
    ensures Unmatched(Run(c, Start(file, leftover), Settled(ops, wait)).world.svc.log) == map[]
  {
    hide Run, Replay, Unmatched;
    var s := Run(c, Start(file, leftover), Settled(ops, wait)).world.svc;
    NothingIsHeld(c, file, leftover, ops, wait);
    RunCovered(c, file, leftover, Settled(ops, wait));
    UnmatchedIsReplay(s.log);
    assert Unmatched(s.log).Keys == {};
  }

  /** Before that, P5 passes exactly when the service holds nothing, unless broken tickets meet double
      grants and leases of more than one tick. */
  lemma {:induction false} P5Exactly(c: Setup, file: Option<Content>, leftover: Option<Content>, ops: seq<Op>)
    requires !(c.faults.nonMonotonicTickets && c.faults.grantTwice && c.lease > 1)
    ensures var s := Run(c, Start(file, leftover), ops).world.svc;
            Unmatched(s.log) == map[] <==> s.held == []
  {
    hide Run, Replay, Unmatched;
    var s := Run(c, Start(file, leftover), ops).world.svc;
    HistoryTracksTheLock(c, file, leftover, ops);
    UnmatchedIsReplay(s.log);
    assert s.held == [] || s.held[0].ticket in Tickets(s.held);
    assert Unmatched(s.log) == map[] <==> Unmatched(s.log).Keys == {};
  }

  // ---------- The verdict

  lemma {:induction false} SettledIsAtomic(ops: seq<Op>, wait: nat)
    requires Atomic(ops)
    ensures Atomic(Settled(ops, wait))
  {
  }

  /** In an atomic run no revocation falls inside an accepted window, so P8 passes. */
  lemma {:induction false} AtomicPassesP8(
    c: Setup, file: Option<Content>, leftover: Option<Content>, ops: seq<Op>)
    requires Atomic(ops) && !c.faults.nonMonotonicTickets
    ensures P8Found(Run(c, Start(file, leftover), ops).world.svc.log) == []
  {
    hide Run, P8Found, Gapless, UnrevokedWindows;
    RunCaughtUp(c, file, leftover, ops);
    P8Exactly(c, file, leftover, ops);
  }

  /** An atomic run applies nothing late, so every accepted ticket is in force and P2 passes. */
  lemma {:induction false} AtomicPassesP2(
    c: Setup, file: Option<Content>, leftover: Option<Content>, ops: seq<Op>)
    requires Atomic(ops) && !c.faults.nonMonotonicTickets
    ensures P2Found(Run(c, Start(file, leftover), ops).world.svc.log) == []
  {
    hide Run, P2Found;
    AtomicAppliesNothing(c, Start(file, leftover), ops);
    P2Exactly(c, file, leftover, ops);
  }

  /** The write that P4 cannot tell from a phantom: one that will be refused, and proposes what the file
      started with, in a run in which no operation lands a write. */
  predicate LooksPhantom(c: Setup, file: Option<Content>, leftover: Option<Content>, ops: seq<Op>) {
    && !EverLands(c, Start(file, leftover), ops)
    && EverRefuses(c, Start(file, leftover), ops, ReadBack(file))
  }

  /** Letting the leases lapse lands nothing, refuses nothing, and brings nobody in. */
  lemma {:induction false} SettlingIsSilent(
    c: Setup, file: Option<Content>, leftover: Option<Content>, ops: seq<Op>, wait: nat)
    ensures LooksPhantom(c, file, leftover, Settled(ops, wait)) <==> LooksPhantom(c, file, leftover, ops)
    ensures EveryoneNoted(c, Settled(ops, wait)) <==> EveryoneNoted(c, ops)
  {
    hide Run;
    var all, waited := Settled(ops, wait), ops + [Advance(wait)];
    assert all[..|all| - 1] == waited && waited[..|ops|] == ops;
    var (start, initial) := (Start(file, leftover), ReadBack(file));
    assert EverLands(c, start, all) == EverLands(c, start, waited) == EverLands(c, start, ops);
    assert EverRefuses(c, start, all, initial) == EverRefuses(c, start, waited, initial) == EverRefuses(c, start, ops, initial);
    assert Speakers(c, all) == Speakers(c, waited) == Speakers(c, ops);
    forall h
      ensures Noted(all, h) <==> Noted(ops, h)
    {
      hide Noted;
      NotedNext(all, h);
      NotedNext(waited, h);
    }
    hide Speakers, Noted;
  }

  /** After an atomic run with monotonic tickets has settled, each property passes, whatever the
      other faults and wherever writes are made to fail. P4 has one exception, and P7 asks that
      whoever took part was noted as finished or wedged. */
  lemma {:induction false} SettledRunPasses(
    c: Setup, file: Option<Content>, leftover: Option<Content>, ops: seq<Op>, wait: nat, p: Property)
    requires Atomic(ops) && !c.faults.nonMonotonicTickets && c.lease <= wait
    ensures var w := Run(c, Start(file, leftover), Settled(ops, wait)).world;
            Passes(p, w.svc.log, ReadBack(w.store.target), ReadBack(file)) <==>
            && !(p == P4NoPhantomWrite && LooksPhantom(c, file, leftover, ops))
            && !(p == P7Liveness && !EveryoneNoted(c, ops))
  {
    hide EveryoneNoted, Unfinished, EverLands, EverRefuses;
    hide Run, P1Found, P2Found, P3Found, P4Found, P6Found, P8Found, Gapless, Settled;
    var all := Settled(ops, wait);
    SettledIsAtomic(ops, wait);
    SettlingIsSilent(c, file, leftover, ops, wait);
    match p
    case P1MutualExclusion => P1AlwaysPasses(c, file, leftover, all);
    case P2TicketValidity => AtomicPassesP2(c, file, leftover, all);
    case P3NoLostWrite => FileIsLastAccepted(c, file, leftover, all);
    case P4NoPhantomWrite => P4InOperations(c, file, leftover, all);
    case P5NoLeakedLock => NothingLeaks(c, file, leftover, ops, wait);
    case P6Freshness => AtomicVersionsNeverSkip(c, file, leftover, all);
    case P7Liveness => P7Exactly(c, file, leftover, all);
    case P8Preemptibility => AtomicPassesP8(c, file, leftover, all);
  }

  /** As long as nobody proposes the very content the file started with, P4 has no exception. */
  lemma {:induction false} NothingLooksPhantom(
    c: Setup, file: Option<Content>, leftover: Option<Content>, ops: seq<Op>)
    requires !Proposes(ops, ReadBack(file))
    ensures !LooksPhantom(c, file, leftover, ops)
  {
    hide Run, Proposes, EverRefuses, WasRefused;
    RunRefusal(c, file, leftover, ops, ReadBack(file));
    if WasRefused(Run(c, Start(file, leftover), ops).world.svc.log, ReadBack(file)) {
      RefusedWasProposed(c, file, leftover, ops, ReadBack(file));
    }
  }

  /** One soak run on real objects: drive the rig, let the leases lapse, check everything. The report
      is clean exactly when everyone who took part was noted at the end, and no refused write proposed
      the starting content in a run that landed nothing. */
  method Soak(setup: Setup, file: Option<Content>, leftover: Option<Content>, ops: seq<Op>, wait: nat)
    returns (report: Report)
    requires Atomic(ops) && !setup.faults.nonMonotonicTickets && setup.lease <= wait
    ensures report.checked == ALL
    ensures report.Passed() <==> EveryoneNoted(setup, ops) && !LooksPhantom(setup, file, leftover, ops)
    ensures EveryoneNoted(setup, ops) && !Proposes(ops, ReadBack(file)) ==> report.Passed()
  {
    hide Run, Passes, LooksPhantom, Proposes, EveryoneNoted;
    var rig := new Rig(setup, file, leftover);
    rig.Drive(Settled(ops, wait), Start(file, leftover));
    ghost var w := Run(setup, Start(file, leftover), Settled(ops, wait)).world;
    var final := rig.harness.store.Read();
    assert rig.harness.history.entries == w.svc.log;
    assert final == ReadBack(w.store.target);
    report := Check(rig.harness.history, ALL, final, ReadBack(file));
    forall p
      ensures Passes(p, w.svc.log, final, ReadBack(file)) <==>
              && !(p == P4NoPhantomWrite && LooksPhantom(setup, file, leftover, ops))
              && !(p == P7Liveness && !EveryoneNoted(setup, ops))
    {
      SettledRunPasses(setup, file, leftover, ops, wait, p);
    }
    assert ALL[3] == P4NoPhantomWrite && ALL[6] == P7Liveness;
    assert P4NoPhantomWrite in ALL && P7Liveness in ALL;
    assert LooksPhantom(setup, file, leftover, ops) ==> !Passes(P4NoPhantomWrite, w.svc.log, final, ReadBack(file));
    assert !EveryoneNoted(setup, ops) ==> !Passes(P7Liveness, w.svc.log, final, ReadBack(file));
    if !Proposes(ops, ReadBack(file)) {
      NothingLooksPhantom(setup, file, leftover, ops);
    }
  }
}
