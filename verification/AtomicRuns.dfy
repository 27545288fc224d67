/** Atomic runs: every write goes through both phases in one step. Under every fault, an authorized
    write lands at once unless renames fail, versions never skip, and no update is lost. */
module AtomicRuns {
  import opened Types
  import opened Histories
  import opened Locks
  import opened Harnesses
  import opened Runs
  import opened Checkers
  import opened CheckerMeaning
  import opened Effects
  import opened Commits
  import opened SplitRuns
  import opened TicketVerdicts

  // ---------- One write

  /** Applied on the spot, an authorized write is never overtaken: it lands unless renames fail. */
  lemma {:induction false} AppliedAtOnce(
    c: Setup, w: World, holder: HolderId, holding: Holding, readAt: nat, content: Content)
    requires Submitted(c, w, holder, holding, readAt, content).1.Ok?
    ensures var (w', a) := Submitted(c, w, holder, holding, readAt, content);
            var (w'', r) := Applied(c, w', a.value);
            && w''.svc.version == w.svc.version + 1
            && r == (if c.failAt == Some(DuringRename) then Err(Io) else Ok(w.svc.version + 1))
            && w''.store.target == (if r.Ok? then Some(content) else w.store.target)
            && (r.Ok? ==> w''.open == w.open - {holding.holder})
  {
    hide Swept, Released;
    SubmittedAuthorized(c, w, holder, holding, readAt, content);
    var (w', a) := Submitted(c, w, holder, holding, readAt, content);
    SweptQuietly(w'.svc);
    var accepted := Record(Swept(w'.svc),
      WriteAccepted(holding.holder, holding.ticket, a.value.newVersion, content));
    ReleasedQuietly(c, accepted, holding);
  }

  lemma {:induction false} WriteLandsOnceAuthorized(
    c: Setup, w: World, holder: HolderId, readAt: nat, content: Content)
    ensures var authorized := Authorizing(c, w, holder, readAt, content).1;
            var (w', r) := Written(c, w, holder, readAt, content);
            && (authorized.Err? ==> r == Err(authorized.error) && w'.svc.version == w.svc.version
                                    && w'.store.target == w.store.target)
            && (authorized.Ok? ==>
                  && readAt == w.svc.version
                  && w'.svc.version == w.svc.version + 1
                  && r == (if c.failAt == Some(DuringRename) then Err(Io) else Ok(w.svc.version + 1))
                  && w'.store.target == (if r.Ok? then Some(content) else w.store.target))
  {
    hide Submitted, Applied, HoldForWrite;
    HoldKeeps(c, w, holder);
    match HoldForWrite(c, w, holder)
    case (_, Err(_)) =>
    case (w1, Ok(holding)) =>
      if Submitted(c, w1, holder, holding, readAt, content).1.Ok? {
        AppliedAtOnce(c, w1, holder, holding, readAt, content);
        SubmittedAuthorized(c, w1, holder, holding, readAt, content);
      } else {
        SubmittedRefused(c, w1, holder, holding, readAt, content);
      }
  }

  lemma {:induction false} HoldKeeps(c: Setup, w: World, holder: HolderId)
    ensures var w' := HoldForWrite(c, w, holder).0;
            w'.svc.version == w.svc.version && w'.store == w.store && Quietly(w.svc.log, w'.svc.log)
  {
    hide Acquired;
    AcquiredQuietly(c, w.svc, holder);
  }

  // ---------- Every step of an atomic run

  /** Nothing waits, no version was skipped, and nothing was revoked inside an accepted window. */
  ghost predicate CaughtUp(c: Setup, rs: RunState) {
    && rs.pool == []
    && Gapless(rs.world.svc.log)
    && UnrevokedWindows(rs)
    && (if c.failAt == Some(DuringRename) then LastAccepted(rs.world.svc.log) == None
        else VersionInForce(rs.world.svc.log) == rs.world.svc.version)
  }

  lemma {:induction false} InForceKept(log: Log, log': Log)
    requires WithoutAccepting(log, log')
    ensures VersionInForce(log') == VersionInForce(log) && LastAccepted(log') == LastAccepted(log)
  {
    DueExtends(log, log', "");
    VersionInForceMeans(log);
    VersionInForceMeans(log');
  }

  lemma {:induction false} GaplessExtends(log: Log, log': Log)
    requires Gapless(log) && WithoutAccepting(log, log')
    ensures Gapless(log')
  {
    hide VersionInForce;
    forall j | 0 <= j < |log'| && log'[j].event.WriteAccepted?
      ensures log'[j].event.version == VersionInForce(log'[..j]) + 1
    {
      assert j < |log| && log'[j] == log[j] && log'[..j] == log[..j];
    }
  }

  lemma {:induction false} VersionNext(log: Log, at: nat, event: Event)
    requires event.WriteAccepted?
    ensures VersionInForce(Append(log, at, event)) == event.version
  {
  }

  lemma {:induction false} GaplessAccepted(log: Log, at: nat, event: Event)
    requires Gapless(log) && event.WriteAccepted? && event.version == VersionInForce(log) + 1
    ensures Gapless(Append(log, at, event))
  {
    hide VersionInForce;
    var log' := Append(log, at, event);
    assert log'[..|log|] == log;
    forall j | 0 <= j < |log'| && log'[j].event.WriteAccepted?
      ensures log'[j].event.version == VersionInForce(log'[..j]) + 1
    {
      if j < |log| {
        assert log'[j] == log[j] && log'[..j] == log[..j];
      }
    }
  }

  lemma {:induction false} WindowsExtend(rs: RunState, rs': RunState)
    requires UnrevokedWindows(rs) && rs.commits <= rs'.commits
    requires WithoutAccepting(rs.world.svc.log, rs'.world.svc.log)
    ensures UnrevokedWindows(rs')
  {
    var log, log' := rs.world.svc.log, rs'.world.svc.log;
    forall j | 0 <= j < |log'| && log'[j].event.WriteAccepted?
      ensures 1 <= log'[j].event.version <= |rs'.commits|
      ensures Unrevoked(log', rs'.commits[log'[j].event.version - 1].attemptedAt, j)
    {
      assert j < |log| && log'[j] == log[j];
      assert Unrevoked(log, rs.commits[log[j].event.version - 1].attemptedAt, j);
      assert forall k | 0 <= k < |log| :: log'[k] == log[k];
    }
  }

  lemma {:induction false} WindowAccepted(rs: RunState, rs': RunState, at: nat, event: Event)
    requires UnrevokedWindows(rs) && rs.commits == rs'.commits
    requires rs'.world.svc.log == Append(rs.world.svc.log, at, event)
    requires event.WriteAccepted? && 1 <= event.version <= |rs.commits|
    requires Unrevoked(rs.world.svc.log, rs.commits[event.version - 1].attemptedAt, |rs.world.svc.log|)
    ensures UnrevokedWindows(rs')
  {
    var log, log' := rs.world.svc.log, rs'.world.svc.log;
    forall j | 0 <= j < |log'| && log'[j].event.WriteAccepted?
      ensures 1 <= log'[j].event.version <= |rs'.commits|
      ensures Unrevoked(log', rs'.commits[log'[j].event.version - 1].attemptedAt, j)
    {
      assert forall k | 0 <= k < |log| :: log'[k] == log[k];
      if j < |log| {
        assert Unrevoked(log, rs.commits[log[j].event.version - 1].attemptedAt, j);
      }
    }
  }

  lemma {:induction false} SubmittedUnrevoked(
    c: Setup, w: World, holder: HolderId, holding: Holding, readAt: nat, content: Content)
    requires Submitted(c, w, holder, holding, readAt, content).1.Ok?
    ensures var w' := Submitted(c, w, holder, holding, readAt, content).0;
            Unrevoked(Swept(w'.svc).log, |w.svc.log|, |Swept(w'.svc).log|)
  {
    var attempted := Record(w.svc, WriteAttempted(holder, holding.ticket, readAt));
    var w' := Submitted(c, w, holder, holding, readAt, content).0;
    AppendAllContents(attempted.log, w.svc.now, Expiries(Lapsed(attempted.held, w.svc.now)));
    AppendAllContents(w'.svc.log, w'.svc.now, Expiries(Lapsed(w'.svc.held, w'.svc.now)));
  }

  lemma {:induction false} QuietCaughtUp(c: Setup, rs: RunState, rs': RunState)
    requires CaughtUp(c, rs) && rs'.pool == [] && rs.commits <= rs'.commits
    requires WithoutAccepting(rs.world.svc.log, rs'.world.svc.log)
    requires c.failAt == Some(DuringRename) || rs'.world.svc.version == rs.world.svc.version
    ensures CaughtUp(c, rs')
  {
    hide Gapless, UnrevokedWindows, VersionInForce;
    InForceKept(rs.world.svc.log, rs'.world.svc.log);
    GaplessExtends(rs.world.svc.log, rs'.world.svc.log);
    WindowsExtend(rs, rs');
  }

  /** The accepted case: the log around the acceptance. */
  lemma {:induction false} AcceptCaughtUp(
    c: Setup, rs: RunState, holding: Holding, readAt: nat, content: Content)
    requires CaughtUp(c, rs) && |rs.commits| == rs.world.svc.version
    requires Submitted(c, rs.world, holding.holder, holding, readAt, content).1.Ok?
    requires c.failAt != Some(DuringRename)
    ensures var (w', a) := Submitted(c, rs.world, holding.holder, holding, readAt, content);
            CaughtUp(c, RunState(Applied(c, w', a.value).0, [],
                                 rs.commits + [RecordOf(rs.world, holding, readAt, content)]))
  {
    hide CaughtUp, Submitted, Applied, Swept;
    var w := rs.world;
    var (w', a) := Submitted(c, w, holding.holder, holding, readAt, content);
    var w'' := Applied(c, w', a.value).0;
    var commits' := rs.commits + [RecordOf(w, holding, readAt, content)];
    SubmittedAuthorized(c, w, holding.holder, holding, readAt, content);
    AppliedAtOnce(c, w, holding.holder, holding, readAt, content);
    AppliedLog(c, w', a.value);
    SubmittedUnrevoked(c, w, holding.holder, holding, readAt, content);
    LandedCaughtUp(c, rs, w'', commits', Swept(w'.svc).log, Swept(w'.svc).now,
      WriteAccepted(holding.holder, holding.ticket, w.svc.version + 1, content));
  }

  lemma {:induction false} LandedCaughtUp(
    c: Setup, rs: RunState, w'': World, commits': seq<Commit>, log: Log, at: nat, event: Event)
    requires CaughtUp(c, rs) && c.failAt != Some(DuringRename)
    requires rs.commits <= commits' && |commits'| == rs.world.svc.version + 1
    requires commits'[|commits'| - 1].attemptedAt == |rs.world.svc.log|
    requires WithoutAccepting(rs.world.svc.log, log)
    requires event.WriteAccepted? && event.version == rs.world.svc.version + 1 == w''.svc.version
    requires Unrevoked(log, |rs.world.svc.log|, |log|)
    requires WithoutAccepting(Append(log, at, event), w''.svc.log)
    ensures CaughtUp(c, RunState(w'', [], commits'))
  {
    hide Gapless, UnrevokedWindows, VersionInForce, Unrevoked, WithoutAccepting;
    var log' := Append(log, at, event);
    var before := RunState(w''.(svc := w''.svc.(log := log)), [], commits');
    var landed := RunState(w''.(svc := w''.svc.(log := log')), [], commits');
    InForceKept(rs.world.svc.log, log);
    GaplessExtends(rs.world.svc.log, log);
    GaplessAccepted(log, at, event);
    VersionNext(log, at, event);
    GaplessExtends(log', w''.svc.log);
    InForceKept(log', w''.svc.log);
    WindowsExtend(rs, before);
    WindowAccepted(before, landed, at, event);
    WindowsExtend(landed, RunState(w'', [], commits'));
  }

  lemma {:induction false} WriteCaughtUp(
    c: Setup, rs: RunState, holder: HolderId, readAt: nat, content: Content)
    requires CaughtUp(c, rs) && |rs.commits| == rs.world.svc.version && OwnOpen(rs.world)
    ensures CaughtUp(c, WriteStep(c, rs, holder, readAt, content))
  {
    hide CaughtUp, Submitted, Applied, HoldForWrite;
    assert rs.pool == [] by {
      NothingWaits(c, rs);
    }
    HoldForWriteQuietly(c, rs.world, holder);
    match HoldForWrite(c, rs.world, holder)
    case (w, Err(_)) =>
      QuietCaughtUp(c, rs, rs.(world := w));
    case (w, Ok(holding)) =>
      QuietCaughtUp(c, rs, rs.(world := w));
      SubmitCaughtUp(c, rs.(world := w), holding, readAt, content);
      assert WriteStep(c, rs, holder, readAt, content) == SubmitThenApply(c, rs.(world := w), holding, readAt, content);
  }

  lemma {:induction false} NothingWaits(c: Setup, rs: RunState)
    requires CaughtUp(c, rs)
    ensures rs.pool == []
  {
  }

  /** The rest of a write, once its hold is taken and nothing else is waiting. */
  function SubmitThenApply(c: Setup, rs: RunState, holding: Holding, readAt: nat, content: Content): RunState {
    match Submitted(c, rs.world, holding.holder, holding, readAt, content)
    case (w', Err(_)) => RunState(w', [], rs.commits)
    case (w', Ok(a)) =>
      RunState(Applied(c, w', a).0, [], rs.commits + [RecordOf(rs.world, holding, readAt, content)])
  }

  lemma {:induction false} SubmitCaughtUp(
    c: Setup, rs: RunState, holding: Holding, readAt: nat, content: Content)
    requires CaughtUp(c, rs) && |rs.commits| == rs.world.svc.version
    ensures CaughtUp(c, SubmitThenApply(c, rs, holding, readAt, content))
  {
    hide CaughtUp, Submitted, Applied;
    var w := rs.world;
    match Submitted(c, w, holding.holder, holding, readAt, content)
    case (w', Err(_)) =>
      SubmittedRefused(c, w, holding.holder, holding, readAt, content);
      QuietCaughtUp(c, rs, RunState(w', [], rs.commits));
    case (w', Ok(a)) =>
      if c.failAt == Some(DuringRename) {
        SubmittedAuthorized(c, w, holding.holder, holding, readAt, content);
        AppliedAtOnce(c, w, holding.holder, holding, readAt, content);
        AppliedLog(c, w', a);
        QuietCaughtUp(c, rs, SubmitThenApply(c, rs, holding, readAt, content));
      } else {
        AcceptCaughtUp(c, rs, holding, readAt, content);
      }
  }

  lemma {:induction false} StepCaughtUp(c: Setup, rs: RunState, op: Op)
    requires CaughtUp(c, rs) && |rs.commits| == rs.world.svc.version && OwnOpen(rs.world)
    requires !op.Authorize? && !op.Apply?
    ensures CaughtUp(c, Step(c, rs, op))
  {
    if op.Write? {
      WriteCaughtUp(c, rs, op.holder, op.readAt, op.content);
    } else {
      assert rs.pool == [];
      hide CaughtUp, Step;
      OtherStepsAcceptNothing(c, rs, op);
      QuietCaughtUp(c, rs, Step(c, rs, op));
    }
  }

  lemma {:induction false} RunCaughtUp(c: Setup, file: Option<Content>, leftover: Option<Content>, ops: seq<Op>)
    requires Atomic(ops)
    ensures CaughtUp(c, Run(c, Start(file, leftover), ops))
  {
    if ops == [] {
    } else {
      hide CaughtUp, Step;
      var before := ops[..|ops| - 1];
      RunCaughtUp(c, file, leftover, before);
      RunCounts(c, file, leftover, before);
      StepCaughtUp(c, Run(c, Start(file, leftover), before), ops[|ops| - 1]);
    }
  }

  lemma {:induction false} RunCounts(c: Setup, file: Option<Content>, leftover: Option<Content>, ops: seq<Op>)
    ensures var rs := Run(c, Start(file, leftover), ops);
            |rs.commits| == rs.world.svc.version && OwnOpen(rs.world)
  {
    hide Run;
    RunIsSafe(c, file, leftover, ops);
  }

  /** In an atomic run every accepted write replaces the version before it: versions are 1, 2, 3
      and so on, P6 never fails, and short of failing renames every commit is an accepted write. */
  lemma {:induction false} AtomicVersionsNeverSkip(
    c: Setup, file: Option<Content>, leftover: Option<Content>, ops: seq<Op>)
    requires Atomic(ops)
    ensures var rs := Run(c, Start(file, leftover), ops);
            && Gapless(rs.world.svc.log)
            && P6Found(rs.world.svc.log) == []
            && (c.failAt != Some(DuringRename) ==> VersionInForce(rs.world.svc.log) == |rs.commits|)
            && (c.failAt == Some(DuringRename) ==> LastAccepted(rs.world.svc.log).None?)
  {
    hide Run, P6Found, Gapless;
    RunCaughtUp(c, file, leftover, ops);
    RunCounts(c, file, leftover, ops);
    P6IsGapless(c, file, leftover, ops);
  }

  // ---------- No lost update

  /** No waiting write is applied. */
  predicate AppliesNothing(ops: seq<Op>) {
    forall i | 0 <= i < |ops| :: !ops[i].Apply?
  }

  /** Unless it applies a waiting write, a step changes the file only by raising the version. */
  lemma {:induction false} StepKeepsContent(c: Setup, rs: RunState, op: Op)
    requires OwnOpen(rs.world) && !op.Apply?
    ensures var w, w' := rs.world, Step(c, rs, op).world;
            && w.svc.version <= w'.svc.version
            && (w'.svc.version == w.svc.version ==> w'.store.target == w.store.target)
  {
    if op.Write? {
      hide Written, Authorizing, WriteStep;
      WriteStepIsWritten(c, rs, op.holder, op.readAt, op.content);
      WriteLandsOnceAuthorized(c, rs.world, op.holder, op.readAt, op.content);
    } else if op.Authorize? {
      AuthorizeKeepsContent(c, rs, op.holder, op.readAt, op.content);
    } else {
      hide Step;
      OtherStepsAcceptNothing(c, rs, op);
    }
  }

  lemma {:induction false} AuthorizeKeepsContent(
    c: Setup, rs: RunState, holder: HolderId, readAt: nat, content: Content)
    ensures var w, w' := rs.world, AuthorizeStep(c, rs, holder, readAt, content).world;
            w.svc.version <= w'.svc.version && w'.store.target == w.store.target
  {
    hide HoldForWrite, Submitted;
    HoldKeeps(c, rs.world, holder);
    match HoldForWrite(c, rs.world, holder)
    case (_, Err(_)) =>
    case (w, Ok(holding)) =>
      if Submitted(c, w, holder, holding, readAt, content).1.Ok? {
        SubmittedAuthorized(c, w, holder, holding, readAt, content);
      } else {
        SubmittedRefused(c, w, holder, holding, readAt, content);
      }
  }

  lemma {:induction false} RunOwnFrom(
    c: Setup, file: Option<Content>, leftover: Option<Content>, past: seq<Op>, future: seq<Op>)
    ensures OwnOpen(Run(c, Run(c, Start(file, leftover), past), future).world)
  {
    RunConcat(c, Start(file, leftover), past, future);
    RunCounts(c, file, leftover, past + future);
  }

  /** While the version stands still and nothing waiting is applied, so does the file. */
  lemma {:induction false} SameVersionSameContent(
    c: Setup, file: Option<Content>, leftover: Option<Content>, past: seq<Op>, future: seq<Op>)
    requires AppliesNothing(future)
    ensures var w := Run(c, Start(file, leftover), past).world;
            var w' := Run(c, Run(c, Start(file, leftover), past), future).world;
            && w.svc.version <= w'.svc.version
            && (w'.svc.version == w.svc.version ==> w'.store.target == w.store.target)
  {
    if future == [] {
    } else {
      hide Step;
      var shorter := future[..|future| - 1];
      SameVersionSameContent(c, file, leftover, past, shorter);
      RunOwnFrom(c, file, leftover, past, shorter);
      StepKeepsContent(c, Run(c, Run(c, Start(file, leftover), past), shorter), future[|future| - 1]);
    }
  }
}
