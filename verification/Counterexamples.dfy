/** Runs in which a plausible claim fails: the reasons the exact conditions are what they are. */
module Counterexamples {
  import opened Types
  import opened Histories
  import opened Stores
  import opened Locks
  import opened Harnesses
  import opened Runs
  import opened Checkers
  import opened CheckerMeaning
  import opened Scenarios
  import opened SpanLimits
  import opened LockMeaning
  import opened HarnessMeaning
  import opened Replays

  const NO_FAULTS := Faults({}, false, false, {})

  // ---------- Operations when nobody else is around

  lemma {:induction false} TakenAlone(c: Setup, s: Service, holder: HolderId)
    requires s.held == [] && !c.faults.nonMonotonicTickets
    ensures var (s', r) := Acquired(c, s, holder);
            var t := s.nextTicket;
            && r == Ok(Holding(holder, t))
            && s' == s.(nextTicket := t + 1, lastIssued := t,
                        held := [HeldBy(holder, t, s.now + c.lease)], log := s'.log)
            && Logs(s'.log) == Logs(s.log) + [TakeRequested(holder), TicketIssued(t), TakeGranted(holder, t)]
  {
    NothingToSweep(s);
    hide Swept, Logs;
    var asked := Append(s.log, s.now, TakeRequested(holder));
    var issued := Append(asked, s.now, TicketIssued(s.nextTicket));
    LogsNext(s.log, s.now, TakeRequested(holder));
    LogsNext(asked, s.now, TicketIssued(s.nextTicket));
    LogsNext(issued, s.now, TakeGranted(holder, s.nextTicket));
  }

  lemma {:induction false} CommittedAlone(s: Service, h: HeldBy)
    requires s.held == [h] && s.now < h.deadline
    ensures Committed(s, Holding(h.holder, h.ticket), s.version) == (s.(version := s.version + 1), Ok(s.version + 1))
  {
    NothingToSweep(s);
    OneHeld(h);
    hide Swept, InForce, Tickets;
  }

  lemma {:induction false} AuthorizedAlone(c: Setup, rs: RunState, holder: HolderId, content: Content)
    requires rs.world.svc.held == [] && c.span == WriteOnly && c.failAt == None && c.lease > 0
    requires !c.faults.nonMonotonicTickets
    ensures var (s, s') := (rs.world.svc, Step(c, rs, Op.Authorize(holder, rs.world.svc.version, content)).world.svc);
            var t := s.nextTicket;
            && s' == s.(nextTicket := t + 1, lastIssued := t, held := [HeldBy(holder, t, s.now + c.lease)],
                        version := s.version + 1, log := s'.log)
            && Logs(s'.log) == Logs(s.log) + [TakeRequested(holder), TicketIssued(t), TakeGranted(holder, t),
                                              WriteAttempted(holder, t, s.version)]
    ensures var rs' := Step(c, rs, Op.Authorize(holder, rs.world.svc.version, content));
            && rs'.pool == rs.pool + [Authorized(Holding(holder, rs.world.svc.nextTicket),
                                                 rs.world.svc.version + 1, content)]
            && rs'.world.store == rs.world.store.(tmp := Some(content))
  {
    hide Acquired, Committed, Logs;
    var s, t := rs.world.svc, rs.world.svc.nextTicket;
    TakenAlone(c, s, holder);
    var svc := Acquired(c, s, holder).0;
    var event := WriteAttempted(holder, t, s.version);
    CommittedAlone(Record(svc, event), HeldBy(holder, t, s.now + c.lease));
    LogsNext(svc.log, s.now, event);
  }

  /** A write with the wrong version, refused for it. */
  lemma {:induction false} RefusedAlone(c: Setup, rs: RunState, holder: HolderId, readAt: nat, content: Content)
    requires rs.world.svc.held == [] && readAt != rs.world.svc.version
    requires c.span == WriteOnly && c.failAt == None && c.lease > 0 && c.faults == NO_FAULTS
    ensures var (s, rs') := (rs.world.svc, Step(c, rs, Op.Write(holder, readAt, content)));
            var t := s.nextTicket;
            && rs'.world.store.target == rs.world.store.target
            && Logs(rs'.world.svc.log) ==
               Logs(s.log) + [TakeRequested(holder), TicketIssued(t), TakeGranted(holder, t),
                              WriteAttempted(holder, t, readAt),
                              WriteRefused(holder, StaleVersion(readAt, s.version), content), GiveBack(holder, t)]
  {
    hide Acquired, Logs, Swept, InForce, Tickets, Without;
    var s, t := rs.world.svc, rs.world.svc.nextTicket;
    TakenAlone(c, s, holder);
    var svc := Acquired(c, s, holder).0;
    var attempted := Record(svc, WriteAttempted(holder, t, readAt));
    var refused := Record(attempted, WriteRefused(holder, StaleVersion(readAt, s.version), content));
    NothingToSweep(attempted);
    NothingToSweep(refused);
    OneHeld(HeldBy(holder, t, s.now + c.lease));
    LogsNext(svc.log, s.now, WriteAttempted(holder, t, readAt));
    LogsNext(attempted.log, s.now, WriteRefused(holder, StaleVersion(readAt, s.version), content));
    LogsNext(refused.log, s.now, GiveBack(holder, t));
    WriteStepIsWritten(c, rs, holder, readAt, content);
    hide WriteStep;
  }

  lemma {:induction false} RevokedNow(s: Service)
    requires forall h | h in s.held :: s.now < h.deadline
    ensures var (s', barrier) := ForceReleased(s);
            && barrier == s.nextTicket + 1
            && s' == s.(held := [], nextTicket := barrier, log := s'.log)
            && Logs(s'.log) == Logs(s.log) + [Revoked(Some(barrier))]
  {
    NothingToSweep(s);
    hide Swept, Logs;
    LogsNext(s.log, s.now, Revoked(Some(s.nextTicket + 1)));
  }

  lemma {:induction false} RevokedAlone(c: Setup, rs: RunState)
    requires forall h | h in rs.world.svc.held :: rs.world.svc.now < h.deadline
    ensures var (s, rs') := (rs.world.svc, Step(c, rs, Op.ForceRelease));
            var barrier := s.nextTicket + 1;
            && rs' == rs.(world := rs.world.(svc := rs'.world.svc))
            && rs'.world.svc == s.(held := [], nextTicket := barrier, log := rs'.world.svc.log)
            && Logs(rs'.world.svc.log) == Logs(s.log) + [Revoked(Some(barrier))]
  {
    hide ForceReleased, Logs;
    RevokedNow(rs.world.svc);
  }

  /** Applying a write that is still the latest, while nothing or only its own ticket is held. */
  lemma {:induction false} GivenBackAlone(c: Setup, s: Service, a: Holding)
    requires c.faults.dropRelease == {} && (s.held == [] || exists h :: s.held == [h] && h.ticket == a.ticket)
    requires forall h | h in s.held :: s.now < h.deadline
    ensures var s' := Released(c, s, a);
            s' == s.(held := [], log := s'.log) && Logs(s'.log) == Logs(s.log) + [GiveBack(a.holder, a.ticket)]
  {
    NothingToSweep(s);
    if s.held != [] {
      OneHeld(s.held[0]);
    }
    hide Swept, Logs;
    LogsNext(s.log, s.now, GiveBack(a.holder, a.ticket));
  }

  lemma {:induction false} AppliedAlone(c: Setup, rs: RunState, k: nat, held: seq<HeldBy>)
    requires c.failAt == None && c.faults.dropRelease == {}
    requires k < |rs.pool| && rs.pool[k].newVersion == rs.world.svc.version && rs.world.store.tmp.Some?
    requires rs.world.svc.held == held
    requires held == [] || exists h :: held == [h] && h.ticket == rs.pool[k].holding.ticket
    requires forall h | h in held :: rs.world.svc.now < h.deadline
    ensures var (a, s, s') := (rs.pool[k], rs.world.svc, Step(c, rs, Op.Apply(k)).world.svc);
            && s' == s.(held := [], log := s'.log)
            && Logs(s'.log) ==
               Logs(s.log) + [WriteAccepted(a.holding.holder, a.holding.ticket, a.newVersion, a.content),
                              GiveBack(a.holding.holder, a.holding.ticket)]
    ensures Step(c, rs, Op.Apply(k)).world.store == Store(rs.world.store.tmp, None)
  {
    hide Swept, Logs, Released;
    var a, s := rs.pool[k], rs.world.svc;
    var event := WriteAccepted(a.holding.holder, a.holding.ticket, a.newVersion, a.content);
    NothingToSweep(s);
    LogsNext(s.log, s.now, event);
    GivenBackAlone(c, Record(s, event), a.holding);
  }

  // ---------- The runs

  predicate Plain(c: Setup) {
    c.span == WriteOnly && c.failAt == None && c.lease > 0 && c.faults == NO_FAULTS
  }

  /** P2 and P8 are judged when a write is accepted, but a ticket counts when it is authorized.
      Revoke in between, and both report a violation though the write was rightly authorized. */
  lemma {:induction false} RevokedInTheGap(c: Setup, file: Option<Content>)
    requires Plain(c)
    ensures var ops := [Op.Authorize("A", 0, "a"), Op.ForceRelease, Op.Apply(0)];
            var log := Run(c, Start(file, None), ops).world.svc.log;
            && P2Found(log) != []
            && P8Found(log) != []
  {
    hide Step, Logs, P2Found, P8Found, Run;
    var r0 := Start(file, None);
    var r1 := Step(c, r0, Op.Authorize("A", 0, "a"));
    var r2 := Step(c, r1, Op.ForceRelease);
    var r3 := Step(c, r2, Op.Apply(0));
    AuthorizedAlone(c, r0, "A", "a");
    RevokedAlone(c, r1);
    AppliedAlone(c, r2, 0, []);
    RunFour(c, r0, Op.Authorize("A", 0, "a"), Op.ForceRelease, Op.Apply(0), Op.Probe);
    assert Logs([]) == [] by {
      LogsOfNothing();
    }
    assert Logs(r3.world.svc.log) ==
           [TakeRequested("A"), TicketIssued(1), TakeGranted("A", 1), WriteAttempted("A", 1, 0),
            Revoked(Some(3)), WriteAccepted("A", 1, 1, "a"), GiveBack("A", 1)];
    RevokedThenAccepted(r3.world.svc.log);
  }

  lemma {:induction false} LogsOfNothing()
    ensures Logs([]) == []
  {
  }

  lemma {:induction false} RevokedThenAccepted(log: Log)
    requires Logs(log) ==
             [TakeRequested("A"), TicketIssued(1), TakeGranted("A", 1), WriteAttempted("A", 1, 0),
              Revoked(Some(3)), WriteAccepted("A", 1, 1, "a"), GiveBack("A", 1)]
    ensures P2Found(log) != [] && P8Found(log) != []
  {
    assert |log| == 7;
    assert log[4].event == Logs(log)[4] && log[5].event == Logs(log)[5];
    hide Logs, P2Found, P8Found;
    P2Means(log);
    P8Means(log);
    assert Ends(log[4].event, 1);
    assert forall i :: !Outstanding(log, i, 1, 5);
    assert !AcceptedInForce(log, 5);
    assert LatestRevocation(log, 4, 5);
  }

  /** P6 counts accepted versions only. A commit that is overtaken before it is applied leaves a gap,
      and the write that overtook it is reported although it was based on the version in force. */
  lemma {:induction false} OvertakenInTheGap(c: Setup, file: Option<Content>)
    requires Plain(c)
    ensures var ops := [Op.Authorize("A", 0, "a"), Op.ForceRelease, Op.Authorize("B", 1, "b"), Op.Apply(1)];
            P6Found(Run(c, Start(file, None), ops).world.svc.log) != []
  {
    hide Step, Logs, P6Found, Run;
    var r0 := Start(file, None);
    var r1 := Step(c, r0, Op.Authorize("A", 0, "a"));
    var r2 := Step(c, r1, Op.ForceRelease);
    var r3 := Step(c, r2, Op.Authorize("B", 1, "b"));
    var r4 := Step(c, r3, Op.Apply(1));
    AuthorizedAlone(c, r0, "A", "a");
    RevokedAlone(c, r1);
    AuthorizedAlone(c, r2, "B", "b");
    AppliedAlone(c, r3, 1, [HeldBy("B", 3, c.lease)]);
    RunFour(c, r0, Op.Authorize("A", 0, "a"), Op.ForceRelease, Op.Authorize("B", 1, "b"), Op.Apply(1));
    LogsOfNothing();
    assert Logs(r4.world.svc.log) ==
           [TakeRequested("A"), TicketIssued(1), TakeGranted("A", 1), WriteAttempted("A", 1, 0), Revoked(Some(3)),
            TakeRequested("B"), TicketIssued(3), TakeGranted("B", 3), WriteAttempted("B", 3, 1),
            WriteAccepted("B", 3, 2, "b"), GiveBack("B", 3)];
    AcceptedAfterAGap(r4.world.svc.log);
  }

  lemma {:induction false} NoneAccepted(log: Log, n: nat)
    requires n <= |log| && forall i | 0 <= i < n :: !log[i].event.WriteAccepted?
    ensures VersionInForce(log[..n]) == 0
  {
    VersionInForceMeans(log[..n]);
    LastAcceptedMeans(log[..n]);
  }

  lemma {:induction false} AcceptedAfterAGap(log: Log)
    requires Logs(log) ==
             [TakeRequested("A"), TicketIssued(1), TakeGranted("A", 1), WriteAttempted("A", 1, 0), Revoked(Some(3)),
              TakeRequested("B"), TicketIssued(3), TakeGranted("B", 3), WriteAttempted("B", 3, 1),
              WriteAccepted("B", 3, 2, "b"), GiveBack("B", 3)]
    ensures P6Found(log) != []
  {
    assert |log| == 11;
    assert forall i | 0 <= i < 11 :: log[i].event == Logs(log)[i];
    hide Logs, P6Found;
    P6Means(log);
    NoneAccepted(log, 9);
    assert forall i :: LatestBasis(log, "B", i, 9) ==> i == 8;
    assert log[9].event.WriteAccepted? && log[9].event.holder == "B";
  }

  /** Between the two phases a snapshot pairs the new version with the old content. */
  lemma {:induction false} SnapshotInTheGap(c: Setup, file: Option<Content>)
    requires Plain(c)
    ensures var w := Run(c, Start(file, None), [Op.Authorize("A", 0, "a")]).world;
            var w' := Run(c, Start(file, None), [Op.Authorize("A", 0, "a"), Op.Apply(0)]).world;
            && ReadDone(c, w, "B").1 == Ok(Snapshot(ReadBack(file), 1))
            && ReadDone(c, w', "B").1 == Ok(Snapshot("a", 1))
  {
    hide Step, Logs, Run;
    var r0 := Start(file, None);
    var r1 := Step(c, r0, Op.Authorize("A", 0, "a"));
    AuthorizedAlone(c, r0, "A", "a");
    AppliedAlone(c, r1, 0, [HeldBy("A", 1, c.lease)]);
    RunTwo(c, r0, Op.Authorize("A", 0, "a"), Op.Apply(0));
  }

  /** P4 cannot tell a refused write that proposes the starting content from one that landed. */
  lemma {:induction false} RefusedButUnchanged(c: Setup, initial: Content)
    requires Plain(c)
    ensures var w := Run(c, Start(Some(initial), None), [Op.Write("A", 1, initial)]).world;
            P4Found(w.svc.log, ReadBack(w.store.target), initial) != []
  {
    hide Step, Logs, P4Found, Run;
    var r0 := Start(Some(initial), None);
    RefusedAlone(c, r0, "A", 1, initial);
    RunTwo(c, r0, Op.Write("A", 1, initial), Op.Probe);
    LogsOfNothing();
    RefusedOnly(Step(c, r0, Op.Write("A", 1, initial)).world.svc.log, initial);
  }

  lemma {:induction false} RefusedOnly(log: Log, initial: Content)
    requires Logs(log) ==
             [TakeRequested("A"), TicketIssued(1), TakeGranted("A", 1), WriteAttempted("A", 1, 1),
              WriteRefused("A", StaleVersion(1, 0), initial), GiveBack("A", 1)]
    ensures P4Found(log, initial, initial) != []
  {
    assert |log| == 6;
    assert forall i | 0 <= i < 6 :: log[i].event == Logs(log)[i];
    hide Logs, P4Found;
    P4Means(log, initial, initial);
    assert log[4].event.WriteRefused? && log[4].event.content == initial;
  }

  /** A write that waits while its agent loses the lock and takes it again closes the newer entry when
      it is applied: the agent then holds the lock, and the harness has no open entry for it. */
  lemma {:induction false} NewerEntryIsClosed(c: Setup, file: Option<Content>, a: HolderId)
    requires c.span == Full && c.failAt == None && c.lease > 0 && c.holdCeiling > 0
    requires !c.faults.nonMonotonicTickets
    ensures var ops := [Op.Read(a), Op.Authorize(a, 0, "a"), Op.ForceExpire, Op.Read(a), Op.Apply(0)];
            var w := Run(c, Start(file, None), ops).world;
            w.svc.held == [HeldBy(a, 2, c.lease)] && w.svc.now == 0 && w.open == map[]
  {
    hide Run, ReadDone, Submitted, Applied, Expiries, AppendAll, Without;
    var r0 := Start(file, None);
    var r1 := Step(c, r0, Op.Read(a));
    var r2 := Step(c, r1, Op.Authorize(a, 0, "a"));
    var r3 := Step(c, r2, Op.ForceExpire);
    var r4 := Step(c, r3, Op.Read(a));
    ReadBeside(c, r0.world, a);
    assert [] + [HeldBy(a, 1, c.lease)] == [HeldBy(a, 1, c.lease)];
    SubmittedOnTop(c, r1.world, [], HeldBy(a, 1, c.lease), "a");
    ReadBeside(c, r3.world, a);
    assert [] + [HeldBy(a, 2, c.lease)] == [HeldBy(a, 2, c.lease)];
    assert r2.pool[0] == Authorized(Holding(a, 1), 1, "a");
    assert r4.world.svc.held == [HeldBy(a, 2, c.lease)];
    assert r4.world.open.Keys == {a};
    AppliedYoung(c, r4.world, r4.pool[0]);
    NothingOn([HeldBy(a, 2, c.lease)], 1);
    RunFive(c, r0, Op.Read(a), Op.Authorize(a, 0, "a"), Op.ForceExpire, Op.Read(a), Op.Apply(0));
  }

  /** All waiting writes share one slot: applying one that was overtaken deletes what the other staged,
      whose own rename then fails. */
  lemma {:induction false} OvertakenEmptiesTheSlot(c: Setup, file: Option<Content>)
    requires Plain(c)
    ensures var rs := Run(c, Start(file, None),
                          [Op.Authorize("A", 0, "a"), Op.ForceRelease, Op.Authorize("B", 1, "b"), Op.Apply(0)]);
            && |rs.pool| == 1 && rs.pool[0] == Authorized(Holding("B", 3), 2, "b")
            && rs.world.svc.version == 2
            && Applied(c, rs.world, rs.pool[0]).1 == Err(Io)
            && Applied(c, rs.world, rs.pool[0]).0.store == Store(file, None)
  {
    hide Step, Logs, Run, Applied, Adds, LapseEvents, Released, Swept;
    var r0 := Start(file, None);
    var r1 := Step(c, r0, Op.Authorize("A", 0, "a"));
    var r2 := Step(c, r1, Op.ForceRelease);
    var r3 := Step(c, r2, Op.Authorize("B", 1, "b"));
    AuthorizedAlone(c, r0, "A", "a");
    RevokedAlone(c, r1);
    AuthorizedAlone(c, r2, "B", "b");
    RunFour(c, r0, Op.Authorize("A", 0, "a"), Op.ForceRelease, Op.Authorize("B", 1, "b"), Op.Apply(0));
    AppliedFirst(c, r3);
    AppliedMeans(c, r3.world, r3.pool[0]);
    var r4 := Step(c, r3, Op.Apply(0));
    AppliedMeans(c, r4.world, r4.pool[0]);
  }

  lemma {:induction false} AppliedFirst(c: Setup, rs: RunState)
    requires |rs.pool| > 0
    ensures Step(c, rs, Op.Apply(0)) == rs.(world := Applied(c, rs.world, rs.pool[0]).0, pool := rs.pool[1..])
  {
    hide Applied;
    assert rs.pool[..0] + rs.pool[1..] == rs.pool[1..];
  }
}
