/** P2 and P8 on every run under every fault. Both are judged where a write is accepted, not where it
    is authorized, so a run that takes the two phases apart can fail them; and a ticket source that
    does not count makes them fail sooner. These are the exact conditions. */
module TicketVerdicts {
  import opened Types
  import opened Histories
  import opened Stores
  import opened Locks
  import opened HoldLists
  import opened Harnesses
  import opened Runs
  import opened ServiceCalls
  import opened Growth
  import opened Checkers
  import opened CheckerMeaning
  import opened Effects
  import opened Commits
  import opened Fencing
  import opened TicketRuns
  import opened SplitRuns
  import opened Attempts
  import opened FaultyRuns
  import opened Replays

  // ---------- P2

  /** The history says this accepted write's ticket was the one in force. */
  ghost predicate InForceAt(log: Log, j: int)
    requires 0 <= j < |log| && log[j].event.WriteAccepted?
  {
    MaxOf(Replay(log[..j]).Keys) == Some(log[j].event.ticket)
  }

  ghost predicate AllInForce(log: Log) {
    forall j | 0 <= j < |log| && log[j].event.WriteAccepted? :: InForceAt(log, j)
  }

  lemma {:induction false} StampsExceed(log: Log)
    requires StampsOk(log)
    ensures BarriersExceed(log)
  {
    forall j, t: nat | 0 <= j < |log| && log[j].event.Revoked? && log[j].event.barrier.Some? && HeldAt(log, t, j)
      ensures t < log[j].event.barrier.value
    {
      var i :| Outstanding(log, i, t, j);
      StampsPairwise(log, i, j);
    }
  }

  /** With tickets in order, only the acceptances matter to P2. */
  lemma {:induction false} P2Reduces(log: Log)
    requires StampsOk(log)
    ensures P2Found(log) == [] <==> AllInForce(log)
  {
    StampsIncreaseTickets(log);
    StampsExceed(log);
    P2Means(log);
    forall j | 0 <= j < |log| && log[j].event.WriteAccepted?
      ensures AcceptedInForce(log, j) <==> InForceAt(log, j)
    {
      P2AtAccept(log, j);
    }
  }

  /** With one ticket, issued once, the same. */
  lemma {:induction false} P2OnOneTicket(s: Service)
    requires Stuck(s)
    ensures P2Found(s.log) == [] <==> IssuedOnce(s.log) && AllInForce(s.log)
  {
    hide P2Found;
    var log := s.log;
    P2Means(log);
    StuckIncreases(s);
    OneTicketExceeds(s);
    forall j | 0 <= j < |log| && log[j].event.WriteAccepted?
      ensures AcceptedInForce(log, j) <==> InForceAt(log, j)
    {
      P2AtAccept(log, j);
    }
  }

  lemma {:induction false} StuckIncreases(s: Service)
    requires Stuck(s)
    ensures TicketsIncrease(s.log) <==> IssuedOnce(s.log)
  {
    assert forall i | 0 <= i < |s.log| && s.log[i].event.TicketIssued? :: StuckEvent(s.log[i].event);
  }

  lemma {:induction false} OneTicketExceeds(s: Service)
    requires Stuck(s)
    ensures BarriersExceed(s.log)
  {
    forall j, t: nat | 0 <= j < |s.log| && s.log[j].event.Revoked? && s.log[j].event.barrier.Some? && HeldAt(s.log, t, j)
      ensures t < s.log[j].event.barrier.value
    {
      var i :| Outstanding(s.log, i, t, j);
      assert StuckEvent(s.log[i].event) && StuckEvent(s.log[j].event);
    }
  }

  lemma {:induction false} InForceExtends(log: Log, log': Log)
    requires WithoutAccepting(log, log')
    ensures AllInForce(log') <==> AllInForce(log)
  {
    hide Replay, MaxOf;
    forall j | 0 <= j < |log|
      ensures log'[j] == log[j] && log'[..j] == log[..j]
    {
    }
    if AllInForce(log') {
      forall j | 0 <= j < |log| && log[j].event.WriteAccepted?
        ensures InForceAt(log, j)
      {
        assert log'[j].event.WriteAccepted? && InForceAt(log', j);
      }
    }
    if AllInForce(log) {
      forall j | 0 <= j < |log'| && log'[j].event.WriteAccepted?
        ensures InForceAt(log', j)
      {
        assert j < |log| && InForceAt(log, j);
      }
    }
  }

  lemma {:induction false} InForceAccepted(log: Log, at: nat, event: Event)
    requires event.WriteAccepted?
    ensures AllInForce(Append(log, at, event)) <==>
            AllInForce(log) && MaxOf(Replay(log).Keys) == Some(event.ticket)
  {
    hide Replay, MaxOf;
    var log' := Append(log, at, event);
    assert log'[..|log|] == log;
    forall j | 0 <= j < |log|
      ensures log'[j] == log[j] && log'[..j] == log[..j]
    {
    }
    if AllInForce(log') {
      assert InForceAt(log', |log|);
      forall j | 0 <= j < |log| && log[j].event.WriteAccepted?
        ensures InForceAt(log, j)
      {
        assert log'[j].event.WriteAccepted? && InForceAt(log', j);
      }
    }
    if AllInForce(log) && MaxOf(Replay(log).Keys) == Some(event.ticket) {
      forall j | 0 <= j < |log'| && log'[j].event.WriteAccepted?
        ensures InForceAt(log', j)
      {
        if j < |log| {
          assert InForceAt(log, j);
        }
      }
    }
  }

  /** The replayed maximum is the service's ticket in force. */
  lemma {:induction false} ReplayedInForce(s: Service)
    requires Tracks(s)
    ensures MaxOf(Replay(s.log).Keys) == InForce(s.held)
  {
    InForceIsMax(s.held);
  }

  lemma {:induction false} SweptInForce(c: Setup, s: Service)
    requires TurnsOk(c, s) && Replayable(c, Swept(s).log)
    ensures MaxOf(Replay(Swept(s).log).Keys) == InForce(Swept(s).held)
  {
    hide TurnsOk, Replayable, Swept, Reaches, Replay, MaxOf, InForce, Tracks;
    ReachesBy(c, s, Sweep);
    ReachesTurns(c, s, Swept(s));
    TurnsTrack(c, Swept(s));
    ReplayedInForce(Swept(s));
  }

  lemma {:induction false} ReplayableBefore(c: Setup, log: Log, log': Log)
    requires Replayable(c, log') && log <= log'
    ensures Replayable(c, log)
  {
    hide InStep;
    if c.faults.nonMonotonicTickets {
      InStepBefore(c, log, log');
    }
  }

  lemma {:induction false} AppliedInForce(c: Setup, w: World, a: Authorized)
    requires TurnsOk(c, w.svc) && Replayable(c, Applied(c, w, a).0.svc.log)
    ensures AllInForce(Applied(c, w, a).0.svc.log) <==>
            AllInForce(w.svc.log) &&
            (Applied(c, w, a).1.Ok? ==> InForce(Swept(w.svc).held) == Some(a.holding.ticket))
  {
    hide AllInForce, TurnsOk, Replayable, Swept, Replay, MaxOf;
    var (w', r) := Applied(c, w, a);
    AppliedLog(c, w, a);
    if r.Ok? {
      var event := WriteAccepted(a.holding.holder, a.holding.ticket, a.newVersion, a.content);
      var swept := Swept(w.svc);
      InForceExtends(w.svc.log, swept.log);
      InForceAccepted(swept.log, swept.now, event);
      InForceExtends(Append(swept.log, swept.now, event), w'.svc.log);
      ReplayableBefore(c, swept.log, w'.svc.log);
      SweptInForce(c, w.svc);
    } else {
      InForceExtends(w.svc.log, w'.svc.log);
    }
  }

  /** What the caller could ask before applying: if the write would land, is its ticket still the one
      in force? */
  ghost predicate ApplyInForce(c: Setup, rs: RunState, op: Op) {
    op.Apply? && op.which < |rs.pool| && Lands(c, rs.world, rs.pool[op.which]) ==>
      InForce(Swept(rs.world.svc).held) == Some(rs.pool[op.which].holding.ticket)
  }

  ghost predicate AppliesInForce(c: Setup, rs: RunState, ops: seq<Op>) {
    ops != [] ==>
      && AppliesInForce(c, rs, ops[..|ops| - 1])
      && ApplyInForce(c, Run(c, rs, ops[..|ops| - 1]), ops[|ops| - 1])
  }

  /** The holds right after an authorization are the swept ones it was judged by. */
  lemma {:induction false} SubmittedHolds(
    c: Setup, w: World, holder: HolderId, holding: Holding, readAt: nat, content: Content)
    requires Submitted(c, w, holder, holding, readAt, content).1.Ok?
    ensures var (w', r) := Submitted(c, w, holder, holding, readAt, content);
            && w'.svc.held == Alive(w.svc.held, w.svc.now)
            && w'.svc.now == w.svc.now
            && r.value.holding == holding
            && InForce(Swept(w'.svc).held) == Some(holding.ticket)
  {
    AliveTwice(w.svc.held, w.svc.now);
  }

  lemma {:induction false} AuthorizeInForce(c: Setup, rs: RunState, holder: HolderId, readAt: nat, content: Content)
    requires OwnOpen(rs.world)
    ensures var rs' := AuthorizeStep(c, rs, holder, readAt, content);
            && WithoutAccepting(rs.world.svc.log, rs'.world.svc.log)
            && |rs.pool| <= |rs'.pool|
            && (|rs.pool| < |rs'.pool| ==>
                  InForce(Swept(rs'.world.svc).held) == Some(rs'.pool[|rs.pool|].holding.ticket))
  {
    hide HoldForWrite, Submitted, Swept, InForce;
    HoldForWriteQuietly(c, rs.world, holder);
    match HoldForWrite(c, rs.world, holder)
    case (w, Err(_)) =>
    case (w, Ok(holding)) =>
      if Submitted(c, w, holder, holding, readAt, content).1.Ok? {
        SubmittedAuthorized(c, w, holder, holding, readAt, content);
        SubmittedHolds(c, w, holder, holding, readAt, content);
      } else {
        SubmittedRefused(c, w, holder, holding, readAt, content);
      }
  }

  lemma {:induction false} WriteInForce(c: Setup, rs: RunState, holder: HolderId, readAt: nat, content: Content)
    requires TurnsOk(c, rs.world.svc) && OwnOpen(rs.world)
    requires Replayable(c, WriteStep(c, rs, holder, readAt, content).world.svc.log)
    ensures AllInForce(WriteStep(c, rs, holder, readAt, content).world.svc.log) <==> AllInForce(rs.world.svc.log)
  {
    hide TurnsOk, Replayable, Reaches, AuthorizeStep, Applied, AllInForce, Swept, InForce;
    var authorized := AuthorizeStep(c, rs, holder, readAt, content);
    AuthorizeInForce(c, rs, holder, readAt, content);
    AuthorizeReaches(c, rs, holder, readAt, content);
    ReachesTurns(c, rs.world.svc, authorized.world.svc);
    InForceExtends(rs.world.svc.log, authorized.world.svc.log);
    if |rs.pool| < |authorized.pool| {
      AppliedInForce(c, authorized.world, authorized.pool[|rs.pool|]);
    }
  }

  lemma {:induction false} StepInForce(c: Setup, rs: RunState, op: Op)
    requires TurnsOk(c, rs.world.svc) && OwnOpen(rs.world) && Replayable(c, Step(c, rs, op).world.svc.log)
    ensures AllInForce(Step(c, rs, op).world.svc.log) <==> AllInForce(rs.world.svc.log) && ApplyInForce(c, rs, op)
  {
    hide TurnsOk, Replayable, AllInForce, Applied, AuthorizeStep, WriteStep, Swept, InForce;
    hide ReadDone, Progressed, Abandoned;
    hide ForceReleased, ForceExpired, WithoutAccepting;
    match op
    case Write(holder, readAt, content) =>
      WriteInForce(c, rs, holder, readAt, content);
    case Authorize(holder, readAt, content) =>
      AuthorizeInForce(c, rs, holder, readAt, content);
      InForceExtends(rs.world.svc.log, AuthorizeStep(c, rs, holder, readAt, content).world.svc.log);
    case Apply(k) =>
      if k < |rs.pool| {
        LandsMeans(c, rs.world, rs.pool[k]);
        AppliedInForce(c, rs.world, rs.pool[k]);
      }
    case _ =>
      OtherStepsAcceptNothing(c, rs, op);
      InForceExtends(rs.world.svc.log, Step(c, rs, op).world.svc.log);
  }

  lemma {:induction false} StepLog(c: Setup, rs: RunState, op: Op)
    ensures rs.world.svc.log <= Step(c, rs, op).world.svc.log
  {
    hide Step;
    StepGrows(c, rs, op);
  }

  lemma {:induction false} RunInForce(c: Setup, file: Option<Content>, leftover: Option<Content>, ops: seq<Op>)
    requires Replayable(c, Run(c, Start(file, leftover), ops).world.svc.log)
    ensures AllInForce(Run(c, Start(file, leftover), ops).world.svc.log) <==>
            AppliesInForce(c, Start(file, leftover), ops)
  {
    if ops == [] {
    } else {
      hide TurnsOk, Replayable, AllInForce, ApplyInForce, Step, Grows;
      var before := Run(c, Start(file, leftover), ops[..|ops| - 1]);
      StepLog(c, before, ops[|ops| - 1]);
      ReplayableBefore(c, before.world.svc.log, Step(c, before, ops[|ops| - 1]).world.svc.log);
      RunInForce(c, file, leftover, ops[..|ops| - 1]);
      RunTurns(c, file, leftover, ops[..|ops| - 1]);
      RunOwn(c, file, leftover, ops[..|ops| - 1]);
      StepInForce(c, before, ops[|ops| - 1]);
    }
  }

  /** P2 fails exactly when some waiting write that would land is applied although its ticket is no
      longer the one in force, for `apply` guards the version only; or when a ticket source that does
      not count has issued twice. */
  lemma {:induction false} P2Exactly(c: Setup, file: Option<Content>, leftover: Option<Content>, ops: seq<Op>)
    ensures var log := Run(c, Start(file, leftover), ops).world.svc.log;
            P2Found(log) == [] <==>
            (c.faults.nonMonotonicTickets ==> IssuedOnce(log)) && AppliesInForce(c, Start(file, leftover), ops)
  {
    hide Run, P2Found, AllInForce, AppliesInForce, IssuedOnce, StampsOk, Stuck;
    var s := Run(c, Start(file, leftover), ops).world.svc;
    if c.faults.nonMonotonicTickets {
      RunStuck(c, file, leftover, ops);
      P2OnOneTicket(s);
    } else {
      RunTickets(c, file, leftover, ops);
      P2Reduces(s.log);
    }
    if c.faults.nonMonotonicTickets ==> IssuedOnce(s.log) {
      RunInForce(c, file, leftover, ops);
    }
  }

  lemma {:induction false} AtomicAppliesNothing(c: Setup, rs: RunState, ops: seq<Op>)
    requires Atomic(ops)
    ensures AppliesInForce(c, rs, ops)
  {
    if ops == [] {
    } else {
      AtomicAppliesNothing(c, rs, ops[..|ops| - 1]);
    }
  }

  // ---------- P8

  /** The committed ticket cleared every barrier there was, and had really been granted. */
  ghost predicate TicketClear(log: Log, cm: Commit) {
    && cm.attemptedAt <= |log|
    && Floor(log[..cm.attemptedAt]) <= cm.holding.ticket
    && 2 * cm.holding.ticket + 2 <= Top(log[..cm.attemptedAt])
  }

  ghost predicate CommitsClear(log: Log, commits: seq<Commit>) {
    forall k | 0 <= k < |commits| :: TicketClear(log, commits[k])
  }

  lemma {:induction false} CommitsClearExtend(log: Log, log': Log, commits: seq<Commit>)
    requires CommitsClear(log, commits) && log <= log'
    ensures CommitsClear(log', commits)
  {
    hide Floor, Top;
    forall k | 0 <= k < |commits|
      ensures TicketClear(log', commits[k])
    {
      assert TicketClear(log, commits[k]);
      assert log'[..commits[k].attemptedAt] == log[..commits[k].attemptedAt];
    }
  }

  /** A held ticket clears the latest barrier, and the counter has passed it. */
  lemma {:induction false} HeldIsClear(s: Service, t: nat)
    requires TicketsOk(s) && t in Tickets(s.held)
    ensures Floor(s.log) <= t && 2 * t + 2 <= Top(s.log)
  {
    assert t in Replay(s.log);
    assert s.log[..|s.log|] == s.log;
    ReplayMeans(s.log, |s.log|, t);
    var i :| Outstanding(s.log, i, t, |s.log|);
    StampBelowTop(s.log, i);
  }

  lemma {:induction false} NewCommitClear(w: World, holding: Holding, readAt: nat, content: Content, log': Log)
    requires TicketsOk(w.svc) && holding.ticket in Tickets(Alive(w.svc.held, w.svc.now))
    requires w.svc.log <= log'
    ensures TicketClear(log', RecordOf(w, holding, readAt, content))
  {
    AliveMeans(w.svc.held, w.svc.now);
    HeldIsClear(w.svc, holding.ticket);
    assert log'[..|w.svc.log|] == w.svc.log;
  }

  lemma {:induction false} AuthorizeClear(c: Setup, rs: RunState, holder: HolderId, readAt: nat, content: Content)
    requires TicketsOk(rs.world.svc) && CommitsClear(rs.world.svc.log, rs.commits) && OwnOpen(rs.world)
    requires !c.faults.nonMonotonicTickets
    ensures var rs' := AuthorizeStep(c, rs, holder, readAt, content);
            CommitsClear(rs'.world.svc.log, rs'.commits)
  {
    hide TicketsOk, TicketClear, HoldForWrite, Submitted;
    HoldForWriteQuietly(c, rs.world, holder);
    HoldForWriteTickets(c, rs.world, holder);
    match HoldForWrite(c, rs.world, holder)
    case (w, Err(_)) =>
      CommitsClearExtend(rs.world.svc.log, w.svc.log, rs.commits);
    case (w, Ok(holding)) =>
      var w' := Submitted(c, w, holder, holding, readAt, content).0;
      if Submitted(c, w, holder, holding, readAt, content).1.Ok? {
        SubmittedAuthorized(c, w, holder, holding, readAt, content);
        NewCommitClear(w, holding, readAt, content, w'.svc.log);
      } else {
        SubmittedRefused(c, w, holder, holding, readAt, content);
      }
      CommitsClearExtend(rs.world.svc.log, w'.svc.log, rs.commits);
  }

  lemma {:induction false} StepClear(c: Setup, rs: RunState, op: Op)
    requires TicketsOk(rs.world.svc) && CommitsClear(rs.world.svc.log, rs.commits) && OwnOpen(rs.world)
    requires !c.faults.nonMonotonicTickets
    ensures CommitsClear(Step(c, rs, op).world.svc.log, Step(c, rs, op).commits)
  {
    hide TicketsOk, CommitsClear, Reaches, AuthorizeStep, ReadDone, Progressed, Abandoned, ForceReleased, ForceExpired;
    hide Swept, Applied;
    StepGrows(c, rs, op);
    match op
    case Write(holder, readAt, content) =>
      AuthorizeClear(c, rs, holder, readAt, content);
      var authorized := AuthorizeStep(c, rs, holder, readAt, content);
      ApplyReaches(c, authorized, |rs.pool|);
      ReachesGrows(c, authorized.world.svc, ApplyStep(c, authorized, |rs.pool|).world.svc);
      CommitsClearExtend(authorized.world.svc.log, Step(c, rs, op).world.svc.log, authorized.commits);
    case Authorize(holder, readAt, content) =>
      AuthorizeClear(c, rs, holder, readAt, content);
    case _ =>
      CommitsClearExtend(rs.world.svc.log, Step(c, rs, op).world.svc.log, rs.commits);
  }

  lemma {:induction false} RunClear(c: Setup, file: Option<Content>, leftover: Option<Content>, ops: seq<Op>)
    requires !c.faults.nonMonotonicTickets
    ensures var rs := Run(c, Start(file, leftover), ops); CommitsClear(rs.world.svc.log, rs.commits)
  {
    if ops == [] {
    } else {
      hide TicketsOk, CommitsClear, Step;
      RunClear(c, file, leftover, ops[..|ops| - 1]);
      RunTickets(c, file, leftover, ops[..|ops| - 1]);
      RunOwn(c, file, leftover, ops[..|ops| - 1]);
      StepClear(c, Run(c, Start(file, leftover), ops[..|ops| - 1]), ops[|ops| - 1]);
    }
  }

  lemma {:induction false} TopGrows(log: Log, p: nat, n: nat)
    requires p <= n <= |log| && StampsOk(log[..n])
    ensures Top(log[..p]) <= Top(log[..n])
  {
    if p < n {
      assert log[..n][..n - 1] == log[..n - 1];
      TopGrows(log, p, n - 1);
    }
  }

  lemma {:induction false} StampsPrefix(log: Log, n: nat)
    requires StampsOk(log) && n <= |log|
    ensures StampsOk(log[..n])
    decreases |log|
  {
    if n < |log| {
      assert log[..|log| - 1][..n] == log[..n];
      StampsPrefix(log[..|log| - 1], n);
    } else {
      assert log[..n] == log;
    }
  }

  /** A barrier raised after a point exceeds the tickets granted before it. */
  lemma {:induction false} LaterBarrier(log: Log, p: nat, i: nat)
    requires StampsOk(log) && p <= i < |log| && log[i].event.Revoked?
    ensures log[i].event.barrier.Some? && Top(log[..p]) <= Low(log[i].event)
  {
    StampsPrefix(log, i + 1);
    assert log[..i + 1][..i] == log[..i];
    TopGrows(log, p, i);
  }

  lemma {:induction false} SameBarrier(log: Log, p: nat, n: nat)
    requires p <= n <= |log| && forall r | p <= r < n :: !log[r].event.Revoked?
    ensures LatestBarrier(log[..n]) == LatestBarrier(log[..p])
  {
    if p < n {
      assert log[..n][..n - 1] == log[..n - 1];
      SameBarrier(log, p, n - 1);
    }
  }

  /** Nothing was revoked between the attempt at `from` and the acceptance at j. */
  ghost predicate Unrevoked(log: Log, from: int, j: int) {
    forall r | from < r < j && 0 <= r < |log| :: !log[r].event.Revoked?
  }

  lemma {:induction false} P8AtAccept(log: Log, cm: Commit, j: nat)
    requires StampsOk(log) && j < |log| && log[j].event.WriteAccepted?
    requires TicketClear(log, cm) && cm.holding.ticket == log[j].event.ticket
    requires cm.attemptedAt < j && log[cm.attemptedAt].event.WriteAttempted?
    ensures P8At(log[..j], log[j]) == [] <==> Unrevoked(log, cm.attemptedAt, j)
  {
    var p := cm.attemptedAt;
    if Unrevoked(log, p, j) {
      SameBarrier(log, p, j);
    } else {
      var r :| p < r < j && log[r].event.Revoked?;
      var i := SomeLatestRevocation(log, r, j);
      LatestBarrierMeans(log, j);
      LaterBarrier(log, p, i);
    }
  }

  ghost predicate UnrevokedWindows(rs: RunState) {
    var log := rs.world.svc.log;
    forall j | 0 <= j < |log| && log[j].event.WriteAccepted? ::
      && 1 <= log[j].event.version <= |rs.commits|
      && Unrevoked(log, rs.commits[log[j].event.version - 1].attemptedAt, j)
  }

  lemma {:induction false} P8OfSafe(c: Setup, rs: RunState, initial: Content)
    requires Safe(c, rs, initial) && TicketsOk(rs.world.svc) && CommitsClear(rs.world.svc.log, rs.commits)
    ensures P8Found(rs.world.svc.log) == [] <==> UnrevokedWindows(rs)
  {
    hide StampsOk, HoldsOk, CommitsOk, AcceptsOk, CommitsClear, P8Found, StagedOk, FileOk, VersionsIncrease;
    P8Windows(rs.world.svc.log, rs.commits);
  }

  /** Nothing was accepted once anything had been revoked. */
  ghost predicate AcceptedFirst(log: Log) {
    forall i, j | 0 <= i < j < |log| && log[i].event.Revoked? :: !log[j].event.WriteAccepted?
  }

  /** With one ticket, only that ticket is accepted, and no barrier lets it through. */
  lemma {:induction false} P8OnOneTicket(c: Setup, file: Option<Content>, leftover: Option<Content>, ops: seq<Op>)
    requires c.faults.nonMonotonicTickets
    ensures var log := Run(c, Start(file, leftover), ops).world.svc.log;
            P8Found(log) == [] <==> AcceptedFirst(log)
  {
    hide Run, P8Found, BarriersIncrease, Stuck;
    var log := Run(c, Start(file, leftover), ops).world.svc.log;
    OneBarrierIsEnough(c, file, leftover, ops);
    forall i, j | 0 <= i < j < |log| && log[i].event.Revoked? && log[j].event.WriteAccepted?
      ensures !Clears(log[i].event.barrier, log[j].event.ticket)
    {
      NotCleared(c, file, leftover, ops, i, j);
    }
  }

  lemma {:induction false} NotCleared(
    c: Setup, file: Option<Content>, leftover: Option<Content>, ops: seq<Op>, i: nat, j: nat)
    requires c.faults.nonMonotonicTickets
    requires var log := Run(c, Start(file, leftover), ops).world.svc.log;
             i < |log| && j < |log| && log[i].event.Revoked? && log[j].event.WriteAccepted?
    ensures var log := Run(c, Start(file, leftover), ops).world.svc.log;
            !Clears(log[i].event.barrier, log[j].event.ticket)
  {
    hide Run, VersionsIncrease, NoCommitBetween;
    var rs := Run(c, Start(file, leftover), ops);
    var log := rs.world.svc.log;
    RunStuck(c, file, leftover, ops);
    AuthorizationIsTheCommitPoint(c, file, leftover, ops);
    var g := NoWriteAtTheCeiling(c, file, leftover, ops, rs.commits[log[j].event.version - 1].attemptedAt);
    assert StuckEvent(log[g].event) && StuckEvent(log[i].event);
  }

  /** P8 fails exactly when a revocation fell between the attempt and the acceptance of some accepted
      write or, with a ticket source that does not count, anywhere before an acceptance. */
  lemma {:induction false} P8Exactly(c: Setup, file: Option<Content>, leftover: Option<Content>, ops: seq<Op>)
    ensures var rs := Run(c, Start(file, leftover), ops);
            P8Found(rs.world.svc.log) == [] <==>
            if c.faults.nonMonotonicTickets then AcceptedFirst(rs.world.svc.log) else UnrevokedWindows(rs)
  {
    hide Run, Safe, TicketsOk, CommitsClear, P8Found, UnrevokedWindows, AcceptedFirst;
    if c.faults.nonMonotonicTickets {
      P8OnOneTicket(c, file, leftover, ops);
    } else {
      RunIsSafe(c, file, leftover, ops);
      RunTickets(c, file, leftover, ops);
      RunClear(c, file, leftover, ops);
      P8OfSafe(c, Run(c, Start(file, leftover), ops), ReadBack(file));
    }
  }

  lemma {:induction false} P8WindowAt(log: Log, commits: seq<Commit>, j: int)
    requires StampsOk(log) && AcceptsOk(log, commits) && CommitsOk(commits, log) && CommitsClear(log, commits)
    requires 0 <= j < |log| && log[j].event.WriteAccepted?
    ensures 1 <= log[j].event.version <= |commits|
    ensures P8At(log[..j], log[j]) == [] <==>
            Unrevoked(log, commits[log[j].event.version - 1].attemptedAt, j)
  {
    var n := log[j].event.version;
    assert AcceptOk(log, commits, j) && CommitOk(commits[n - 1], n - 1, log) && TicketClear(log, commits[n - 1]);
    hide AcceptsOk, CommitsOk, CommitsClear, StampsOk, TicketClear, Unrevoked, NoAttempt, P8At;
    P8AtAccept(log, commits[n - 1], j);
  }

  lemma {:induction false} P8Windows(log: Log, commits: seq<Commit>)
    requires StampsOk(log) && AcceptsOk(log, commits) && CommitsOk(commits, log) && CommitsClear(log, commits)
    ensures P8Found(log) == [] <==>
            forall j | 0 <= j < |log| && log[j].event.WriteAccepted? ::
              && 1 <= log[j].event.version <= |commits|
              && Unrevoked(log, commits[log[j].event.version - 1].attemptedAt, j)
  {
    hide AcceptsOk, CommitsOk, CommitsClear, StampsOk, Unrevoked;
    CollectIsEmpty(log, P8At);
    forall j | 0 <= j < |log| && log[j].event.WriteAccepted?
      ensures 1 <= log[j].event.version <= |commits|
      ensures P8At(log[..j], log[j]) == [] <==>
              Unrevoked(log, commits[log[j].event.version - 1].attemptedAt, j)
    {
      P8WindowAt(log, commits, j);
    }
  }
}
