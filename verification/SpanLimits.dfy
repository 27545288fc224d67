/** Exactly which setups need the full span's version check. */
module SpanLimits {
  import opened Types
  import opened Histories
  import opened Stores
  import opened Locks
  import opened Harnesses
  import opened Runs
  import opened Attempts
  import opened Holds
  import opened Spans
  import opened Scenarios

  /** A write on the very hold its read opened, still open, with nothing but one-step writes before
      and since, is refused for its version. */
  ghost predicate VersionRefusal(
    c: Setup, file: Option<Content>, leftover: Option<Content>,
    past: seq<Op>, holder: HolderId, between: seq<Op>, content: Content)
  {
    var (read, snapshot) := ReadDone(c, Run(c, Start(file, leftover), past).world, holder);
    var w := Run(c, Start(file, leftover), past + [Op.Read(holder)] + between).world;
    && Atomic(past) && Atomic(between)
    && snapshot.Ok?
    && holder in read.open && holder in w.open && w.open[holder] == read.open[holder]
    && RefusedForVersion(Written(c, w, holder, snapshot.value.version, content).1)
  }

  predicate RefusedForVersion(r: Result<nat, WriteError>) {
    r.Err? && r.error.Refused? && r.error.reason.StaleVersion?
  }

  ghost predicate VersionCheckNeeded(c: Setup) {
    exists file, leftover, past, holder, between, content ::
      VersionRefusal(c, file, leftover, past, holder, between, content)
  }

  // ---------- Steps with everybody's leases young

  /** Issuing looks at the counters only. */
  lemma {:induction false} SameTicketNext(c: Setup, s: Service, event: Event)
    ensures Issued(c, Record(s, event)).1 == Issued(c, s).1
  {
  }

  lemma {:induction false} GrantedBeside(c: Setup, s: Service, holder: HolderId)
    ensures var (s', holding) := Granted(c, s, holder);
            var t := Issued(c, s).1;
            && holding == Holding(holder, t)
            && s'.held == s.held + [HeldBy(holder, t, s.now + c.lease)]
            && s'.version == s.version && s'.now == s.now
            && s'.nextTicket == (if c.faults.nonMonotonicTickets then s.nextTicket else s.nextTicket + 1)
            && s'.lastIssued == t
  {
  }

  /** A take adds its hold beside the ones there are. */
  lemma {:induction false} TakenBeside(c: Setup, s: Service, holder: HolderId)
    requires c.faults.grantTwice || s.held == []
    requires forall h | h in s.held :: s.now < h.deadline
    ensures var (s', r) := Acquired(c, s, holder);
            var t := Issued(c, s).1;
            && r == Ok(Holding(holder, t))
            && s'.held == s.held + [HeldBy(holder, t, s.now + c.lease)]
            && s'.version == s.version && s'.now == s.now
            && s'.nextTicket == (if c.faults.nonMonotonicTickets then s.nextTicket else s.nextTicket + 1)
            && s'.lastIssued == t
  {
    hide Swept, Granted, Issued;
    NothingToSweep(s);
    SameTicketNext(c, s, TakeRequested(holder));
    GrantedBeside(c, Record(s, TakeRequested(holder)), holder);
  }

  /** And so does a read, under the full span. */
  lemma {:induction false} ReadBeside(c: Setup, w: World, holder: HolderId)
    requires c.span == Full && c.lease > 0
    requires c.faults.grantTwice || w.svc.held == []
    requires forall h | h in w.svc.held :: w.svc.now < h.deadline
    ensures var (w', r) := ReadDone(c, w, holder);
            var t := Issued(c, w.svc).1;
            && r == Ok(Snapshot(ReadBack(w.store.target), w.svc.version))
            && w'.svc.held == w.svc.held + [HeldBy(holder, t, w.svc.now + c.lease)]
            && w'.svc.version == w.svc.version && w'.svc.now == w.svc.now
            && w'.svc.nextTicket == (if c.faults.nonMonotonicTickets then w.svc.nextTicket else w.svc.nextTicket + 1)
            && w'.svc.lastIssued == t
            && w'.open == w.open[holder := Open(Holding(holder, t), w.svc.now)]
            && w'.store == w.store
  {
    hide Swept, Acquired, Issued;
    TakenBeside(c, w.svc, holder);
    NothingToSweep(Acquired(c, w.svc, holder).0);
  }

  lemma {:induction false} CommittedOnTop(s: Service, held: seq<HeldBy>, b: HeldBy)
    requires s.held == held + [b] && (forall h | h in s.held :: s.now < h.deadline)
    requires forall h | h in held :: h.ticket <= b.ticket
    ensures Committed(s, Holding(b.holder, b.ticket), s.version) == (s.(version := s.version + 1), Ok(s.version + 1))
  {
    hide Swept, InForce, Tickets;
    NothingToSweep(s);
    InForceOnTop(held, b);
  }

  lemma {:induction false} GivenBack(c: Setup, s: Service, holding: Holding)
    requires forall h | h in s.held :: s.now < h.deadline
    ensures var s' := Released(c, s, holding);
            s' == s.(held := if holding.holder in c.faults.dropRelease then s.held else Without(s.held, holding.ticket),
                     log := s'.log)
  {
    hide Swept, Without;
    NothingToSweep(s);
  }

  lemma {:induction false} SubmittedOnTop(c: Setup, w: World, held: seq<HeldBy>, b: HeldBy, content: Content)
    requires c.failAt != Some(AfterTempWritten)
    requires w.svc.held == held + [b] && (forall h | h in w.svc.held :: w.svc.now < h.deadline)
    requires forall h | h in held :: h.ticket <= b.ticket
    ensures var holding := Holding(b.holder, b.ticket);
            var (w', r) := Submitted(c, w, b.holder, holding, w.svc.version, content);
            && r == Ok(Authorized(holding, w.svc.version + 1, content))
            && w'.svc == w.svc.(version := w.svc.version + 1, log := w'.svc.log)
            && w'.store.tmp.Some? && w'.open == w.open
  {
    hide Committed, Released;
    CommittedOnTop(Record(w.svc, WriteAttempted(b.holder, b.ticket, w.svc.version)), held, b);
  }

  lemma {:induction false} AppliedYoung(c: Setup, w: World, a: Authorized)
    requires c.failAt == None && w.store.tmp.Some? && a.newVersion == w.svc.version
    requires forall h | h in w.svc.held :: w.svc.now < h.deadline
    ensures var w' := Applied(c, w, a).0;
            && w'.svc == w.svc.(held := if a.holding.holder in c.faults.dropRelease then w.svc.held
                                        else Without(w.svc.held, a.holding.ticket), log := w'.svc.log)
            && w'.open == w.open - {a.holding.holder}
  {
    hide Swept, Released, Without;
    NothingToSweep(w.svc);
    var event := WriteAccepted(a.holding.holder, a.holding.ticket, a.newVersion, a.content);
    GivenBack(c, Record(w.svc, event), a.holding);
  }

  /** Whoever has the ticket in force and the current version raises the version. */
  lemma {:induction false} TopWrites(c: Setup, w: World, held: seq<HeldBy>, b: HeldBy, content: Content)
    requires c.span == Full && c.failAt == None && c.holdCeiling > 0
    requires w.svc.held == held + [b] && forall h | h in w.svc.held :: w.svc.now < h.deadline
    requires forall h | h in held :: h.ticket <= b.ticket
    requires b.holder in w.open && w.open[b.holder] == Open(Holding(b.holder, b.ticket), w.svc.now)
    ensures var w' := Written(c, w, b.holder, w.svc.version, content).0;
            && w'.svc.version == w.svc.version + 1 && w'.svc.now == w.svc.now
            && w'.svc.nextTicket == w.svc.nextTicket && w'.svc.lastIssued == w.svc.lastIssued
            && w'.svc.held == (if b.holder in c.faults.dropRelease then w.svc.held else Without(w.svc.held, b.ticket))
            && w'.open == w.open - {b.holder}
  {
    hide Submitted, Applied, Without;
    var holding := Holding(b.holder, b.ticket);
    SubmittedOnTop(c, w, held, b, content);
    var (w', r) := Submitted(c, w, b.holder, holding, w.svc.version, content);
    AppliedYoung(c, w', r.value);
  }

  /** A write whose rename fails has raised the version, and its hold stays open. */
  lemma {:induction false} RenameFails(c: Setup, w: World, a: HeldBy, content: Content)
    requires c.span == Full && c.failAt == Some(DuringRename) && c.holdCeiling > 0
    requires w.svc.held == [a] && w.svc.now < a.deadline
    requires a.holder in w.open && w.open[a.holder] == Open(Holding(a.holder, a.ticket), w.svc.now)
    ensures var (w', r) := Written(c, w, a.holder, w.svc.version, content);
            && r == Err(Io)
            && w'.svc.held == [a] && w'.svc.version == w.svc.version + 1 && w'.svc.now == w.svc.now
            && w'.open == w.open
  {
    hide Swept, InForce, Tickets;
    var attempted := Record(w.svc, WriteAttempted(a.holder, a.ticket, w.svc.version));
    NothingToSweep(attempted);
    OneHeld(a);
    NothingToSweep(attempted.(version := w.svc.version + 1));
  }

  /** On the one ticket held, a write with another version is refused for it. */
  lemma {:induction false} HeldButStale(c: Setup, w: World, holder: HolderId, h: HeldBy, readAt: nat, content: Content)
    requires c.span == Full && c.failAt != Some(AfterTempWritten) && c.holdCeiling > 0
    requires w.svc.held == [h] && w.svc.now < h.deadline && readAt != w.svc.version
    requires holder in w.open && w.open[holder] == Open(Holding(holder, h.ticket), w.svc.now)
    ensures Written(c, w, holder, readAt, content).1 == Err(Refused(StaleVersion(readAt, w.svc.version)))
  {
    hide Swept, InForce, Tickets, Released;
    NothingToSweep(Record(w.svc, WriteAttempted(holder, h.ticket, readAt)));
    OneHeld(h);
  }

  /** Under the write-only span, authorizing takes a hold and raises the version. */
  lemma {:induction false} AuthorizeBeside(c: Setup, rs: RunState, holder: HolderId, content: Content)
    requires c.span == WriteOnly && c.failAt != Some(AfterTempWritten) && c.lease > 0
    requires var s := rs.world.svc;
             && (c.faults.grantTwice || s.held == [])
             && forall h | h in s.held :: s.now < h.deadline && h.ticket <= Issued(c, s).1
    ensures var (s, rs') := (rs.world.svc, Step(c, rs, Op.Authorize(holder, rs.world.svc.version, content)));
            var t := Issued(c, s).1;
            && rs'.world.svc.held == s.held + [HeldBy(holder, t, s.now + c.lease)]
            && rs'.world.svc.version == s.version + 1 && rs'.world.svc.now == s.now
            && rs'.world.svc.lastIssued == t
            && rs'.pool == rs.pool + [Authorized(Holding(holder, t), s.version + 1, content)]
  {
    hide Acquired, Submitted, Issued;
    var s := rs.world.svc;
    TakenBeside(c, s, holder);
    var svc := Acquired(c, s, holder).0;
    SubmittedOnTop(c, rs.world.(svc := svc), s.held, HeldBy(holder, Issued(c, s).1, s.now + c.lease), content);
  }

  // ---------- The three ways

  /** A takes the lock, and B takes it too. */
  lemma {:induction false} TwoTake(c: Setup, file: Option<Content>, b: HolderId)
    requires c.span == Full && c.lease > 0 && c.faults.grantTwice && !c.faults.nonMonotonicTickets && b != "A"
    ensures var r0 := Start(file, None);
            var w := Run(c, r0, [Op.Read("A"), Op.Read(b)]).world;
            && ReadDone(c, r0.world, "A").1 == Ok(Snapshot(ReadBack(file), 0))
            && w.svc.held == [HeldBy("A", 1, c.lease)] + [HeldBy(b, 2, c.lease)]
            && w.svc.version == 0 && w.svc.now == 0
            && w.open == map["A" := Open(Holding("A", 1), 0), b := Open(Holding(b, 2), 0)]
  {
    hide ReadDone, Run;
    var r0 := Start(file, None);
    ReadBeside(c, r0.world, "A");
    ReadBeside(c, Step(c, r0, Op.Read("A")).world, b);
    RunTwo(c, r0, Op.Read("A"), Op.Read(b));
  }

  /** With two grants at once: A's hold is never lost, and yet its write is refused for its version. */
  lemma {:induction false} TwoGrantsMoveTheVersion(c: Setup, file: Option<Content>, b: HolderId)
    requires c.span == Full && c.failAt == None && c.lease > 0 && c.holdCeiling > 0
    requires c.faults.grantTwice && !c.faults.nonMonotonicTickets
    requires b != "A" && b !in c.faults.dropRelease
    ensures var r0 := Start(file, None);
            var w := Run(c, r0, [Op.Read("A"), Op.Read(b), Op.Write(b, 0, "b")]).world;
            && ReadDone(c, r0.world, "A").1 == Ok(Snapshot(ReadBack(file), 0))
            && w.svc.held == [HeldBy("A", 1, c.lease)]
            && "A" in w.open && w.open["A"] == Open(Holding("A", 1), 0)
            && Written(c, w, "A", 0, "a").1 == Err(Refused(StaleVersion(0, 1)))
  {
    hide ReadDone, Written, WriteStep, Run, Without, InForce, Tickets;
    var r0 := Start(file, None);
    var r2 := Run(c, r0, [Op.Read("A"), Op.Read(b)]);
    TwoTake(c, file, b);
    WriteStepIsWritten(c, r2, b, 0, "b");
    var elder, younger := HeldBy("A", 1, c.lease), HeldBy(b, 2, c.lease);
    TopWrites(c, r2.world, [elder], younger, "b");
    TwoHeld(elder, younger);
    assert [elder] + [younger] == [elder, younger];
    RunMore(c, r0, [Op.Read("A"), Op.Read(b)], Op.Write(b, 0, "b"));
    assert [Op.Read("A"), Op.Read(b)] + [Op.Write(b, 0, "b")] == [Op.Read("A"), Op.Read(b), Op.Write(b, 0, "b")];
    HeldButStale(c, Step(c, r2, Op.Write(b, 0, "b")).world, "A", elder, 0, "a");
  }

  /** Trying again after a failed rename is refused for the version, on a hold never lost. */
  lemma {:induction false} FailedRenameMovesTheVersion(c: Setup, file: Option<Content>)
    requires c.span == Full && c.failAt == Some(DuringRename) && c.lease > 0 && c.holdCeiling > 0
    ensures var r0 := Start(file, None);
            var w := Run(c, r0, [Op.Read("A"), Op.Write("A", 0, "a")]).world;
            && ReadDone(c, r0.world, "A").1 == Ok(Snapshot(ReadBack(file), 0))
            && w.svc.held == [HeldBy("A", 1, c.lease)]
            && "A" in w.open && w.open["A"] == Open(Holding("A", 1), 0)
            && Written(c, w, "A", 0, "a").1 == Err(Refused(StaleVersion(0, 1)))
  {
    hide ReadDone, Written, WriteStep, Run;
    var r0 := Start(file, None);
    var r1 := Step(c, r0, Op.Read("A"));
    var a := HeldBy("A", 1, c.lease);
    ReadBeside(c, r0.world, "A");
    WriteStepIsWritten(c, r1, "A", 0, "a");
    RenameFails(c, r1.world, a, "a");
    RunTwo(c, r0, Op.Read("A"), Op.Write("A", 0, "a"));
    HeldButStale(c, Step(c, r1, Op.Write("A", 0, "a")).world, "A", a, 0, "a");
  }

  /** B's whole turn on the broken ticket: it writes, loses the lock, and takes it again. */
  const BROKEN_TURN: seq<Op> :=
    [Op.ForceExpire, Op.Read("B"), Op.Write("B", 0, "b"), Op.ForceExpire, Op.Read("B")]

  lemma {:induction false} RunFive(c: Setup, rs: RunState, a: Op, b: Op, d: Op, e: Op, f: Op)
    ensures Run(c, rs, [a, b, d, e, f]) == Step(c, Step(c, Step(c, Step(c, Step(c, rs, a), b), d), e), f)
  {
    hide Step, Run;
    RunFour(c, rs, a, b, d, e);
    RunMore(c, rs, [a, b, d, e], f);
    assert [a, b, d, e] + [f] == [a, b, d, e, f];
  }

  /** With broken tickets A's lost hold comes back with B's: the ticket is the same. */
  lemma {:induction false} BrokenTicketsMoveTheVersion(c: Setup, file: Option<Content>)
    requires c.span == Full && c.failAt == None && c.lease > 0 && c.holdCeiling > 0
    requires c.faults.nonMonotonicTickets
    ensures var r0 := Start(file, None);
            var w := Run(c, Run(c, r0, [Op.Read("A")]), BROKEN_TURN).world;
            && ReadDone(c, r0.world, "A").1 == Ok(Snapshot(ReadBack(file), 0))
            && w.svc.held == [HeldBy("B", 1, c.lease)]
            && "A" in w.open && w.open["A"] == Open(Holding("A", 1), 0)
            && Written(c, w, "A", 0, "a").1 == Err(Refused(StaleVersion(0, 1)))
  {
    hide ReadDone, Written, WriteStep, Run, Without, AppendAll, Expiries;
    var r0 := Start(file, None);
    var r1 := Step(c, r0, Op.Read("A"));
    var r2 := Step(c, r1, Op.ForceExpire);
    var r3 := Step(c, r2, Op.Read("B"));
    var r4 := Step(c, r3, Op.Write("B", 0, "b"));
    var r5 := Step(c, r4, Op.ForceExpire);
    var r6 := Step(c, r5, Op.Read("B"));
    var b := HeldBy("B", 1, c.lease);
    ReadBeside(c, r0.world, "A");
    ReadBeside(c, r2.world, "B");
    WriteStepIsWritten(c, r3, "B", 0, "b");
    TopWrites(c, r3.world, [], b, "b");
    ReadBeside(c, r5.world, "B");
    RunTwo(c, r0, Op.Read("A"), Op.Probe);
    RunFive(c, r1, Op.ForceExpire, Op.Read("B"), Op.Write("B", 0, "b"), Op.ForceExpire, Op.Read("B"));
    HeldButStale(c, r6.world, "A", b, 0, "a");
  }

  // ---------- Both directions

  /** A refusal seen at the end of a run that starts with A's read. */
  lemma {:induction false} RefusalSeen(c: Setup, file: Option<Content>, between: seq<Op>)
    requires c.span == Full && c.lease > 0 && Atomic(between)
    requires var w := Run(c, Run(c, Start(file, None), [Op.Read("A")]), between).world;
             && "A" in w.open && w.open["A"] == Open(Holding("A", 1), 0)
             && RefusedForVersion(Written(c, w, "A", 0, "a").1)
    ensures VersionRefusal(c, file, None, [], "A", between, "a")
  {
    hide ReadDone, Written, Run;
    var r0 := Start(file, None);
    RunNone(c, r0);
    RunConcat(c, r0, [Op.Read("A")], between);
    assert [] + [Op.Read("A")] + between == [Op.Read("A")] + between;
    ReadBeside(c, r0.world, "A");
  }

  lemma {:induction false} RunNone(c: Setup, rs: RunState)
    ensures Run(c, rs, []) == rs
  {
  }

  lemma {:induction false} NeededByTwoGrants(c: Setup)
    requires c.span == Full && c.failAt == None && c.lease > 0 && c.holdCeiling > 0
    requires c.faults.grantTwice && !c.faults.nonMonotonicTickets
    ensures VersionCheckNeeded(c)
  {
    hide Run, VersionRefusal, Written;
    var b := SomeoneElse(c.faults.dropRelease + {"A"});
    var between := [Op.Read(b), Op.Write(b, 0, "b")];
    TwoGrantsMoveTheVersion(c, None, b);
    RunConcat(c, Start(None, None), [Op.Read("A")], between);
    assert [Op.Read("A")] + between == [Op.Read("A"), Op.Read(b), Op.Write(b, 0, "b")];
    RefusalSeen(c, None, between);
    assert VersionRefusal(c, None, None, [], "A", between, "a");
  }

  lemma {:induction false} NeededByFailingRenames(c: Setup)
    requires c.span == Full && c.failAt == Some(DuringRename) && c.lease > 0 && c.holdCeiling > 0
    ensures VersionCheckNeeded(c)
  {
    hide Run, VersionRefusal, Written;
    var between := [Op.Write("A", 0, "a")];
    FailedRenameMovesTheVersion(c, None);
    RunConcat(c, Start(None, None), [Op.Read("A")], between);
    assert [Op.Read("A")] + between == [Op.Read("A"), Op.Write("A", 0, "a")];
    RefusalSeen(c, None, between);
    assert VersionRefusal(c, None, None, [], "A", between, "a");
  }

  lemma {:induction false} NeededByBrokenTickets(c: Setup)
    requires c.span == Full && c.failAt == None && c.lease > 0 && c.holdCeiling > 0
    requires c.faults.nonMonotonicTickets
    ensures VersionCheckNeeded(c)
  {
    hide Run, VersionRefusal, Written;
    BrokenTicketsMoveTheVersion(c, None);
    RefusalSeen(c, None, BROKEN_TURN);
    assert VersionRefusal(c, None, None, [], "A", BROKEN_TURN, "a");
  }

  /** Without time or staging, or without a lease, a write is never even compared by version. */
  lemma {:induction false} NeverCompared(c: Setup, w: World, holder: HolderId, readAt: nat, content: Content)
    requires c.span == Full && Shape(c, w.svc) && OpensBacked(w)
    requires c.lease == 0 || c.holdCeiling == 0 || c.failAt == Some(AfterTempWritten)
    ensures !RefusedForVersion(Written(c, w, holder, readAt, content).1)
  {
    assert holder in w.open ==> OpenBacked(w.svc, holder, w.open[holder]);
    hide Swept, Published, Finished, Released, Shape, OpenBacked, InForce, Committed;
    if holder in w.open && w.svc.now < w.open[holder].takenAt + c.holdCeiling && c.lease == 0 {
      var o := w.open[holder];
      var attempted := Record(w.svc, WriteAttempted(holder, o.holding.ticket, readAt));
      SameShape(c, w.svc, attempted);
      NothingCommits(c, attempted, o.holding, readAt);
    }
  }

  lemma {:induction false} NothingCommits(c: Setup, s: Service, holding: Holding, readAt: nat)
    requires Shape(c, s) && c.lease == 0
    ensures Committed(s, holding, readAt).1 == Err(StaleTicket(holding.ticket, None))
  {
    NothingAlive(c, s);
    hide Alive, Lapsed, Expiries, AppendAll, Shape;
  }

  lemma {:induction false} NotNeeded(
    c: Setup, file: Option<Content>, leftover: Option<Content>,
    past: seq<Op>, holder: HolderId, between: seq<Op>, content: Content)
    requires VersionRefusal(c, file, leftover, past, holder, between, content)
    ensures c.span == Full && c.lease > 0 && c.holdCeiling > 0 && c.failAt != Some(AfterTempWritten)
    ensures c.faults.grantTwice || c.faults.nonMonotonicTickets || c.failAt == Some(DuringRename)
  {
    hide Run, ReadDone, Written, Shape, OpensBacked, TimesOk, AttemptsBacked;
    var ops := past + [Op.Read(holder)] + between;
    var w := Run(c, Start(file, leftover), ops).world;
    var snapshot := ReadDone(c, Run(c, Start(file, leftover), past).world, holder).1;
    RunShape(c, file, leftover, ops);
    RunBacked(c, file, leftover, ops);
    if c.span == WriteOnly {
      RunOpensNothing(c, file, leftover, ops);
    } else if c.lease == 0 || c.holdCeiling == 0 || c.failAt == Some(AfterTempWritten) {
      NeverCompared(c, w, holder, snapshot.value.version, content);
    } else if !c.faults.grantTwice && !c.faults.nonMonotonicTickets && c.failAt != Some(DuringRename) {
      FullSpanTicketDecides(c, file, leftover, past, holder, between, content);
    }
  }

  /** Under the full span the version check is needed exactly where a write can get as far as being
      compared, and double grants, broken tickets or failing renames are on. Everywhere else no
      atomic run whatever refuses, for its version, a write on the hold its read opened. */
  lemma {:induction false} VersionCheckNeededExactly(c: Setup)
    ensures VersionCheckNeeded(c) <==>
            && c.span == Full && c.lease > 0 && c.holdCeiling > 0 && c.failAt != Some(AfterTempWritten)
            && (c.faults.grantTwice || c.faults.nonMonotonicTickets || c.failAt == Some(DuringRename))
  {
    hide VersionRefusal;
    if VersionCheckNeeded(c) {
      var file, leftover, past, holder, between, content :|
        VersionRefusal(c, file, leftover, past, holder, between, content);
      NotNeeded(c, file, leftover, past, holder, between, content);
    }
    if c.span == Full && c.lease > 0 && c.holdCeiling > 0 && c.failAt != Some(AfterTempWritten) {
      assert c.failAt.None? || c.failAt.value == AfterTempWritten || c.failAt.value == DuringRename;
      if c.failAt == Some(DuringRename) {
        NeededByFailingRenames(c);
      } else if c.faults.nonMonotonicTickets {
        NeededByBrokenTickets(c);
      } else if c.faults.grantTwice {
        NeededByTwoGrants(c);
      }
    }
  }
}
