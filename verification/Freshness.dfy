/** When P6 passes, in terms a caller could check: before each write that will land, has everything
    committed so far reached the file? */
module Freshness {
  import opened Types
  import opened Histories
  import opened Locks
  import opened Harnesses
  import opened Runs
  import opened Checkers
  import opened Effects
  import opened Commits
  import opened SplitRuns
  import opened TicketVerdicts
  import opened AtomicRuns
  import opened Holds
  import opened Spans

  /** A waiting write that would land follows the version in force; a write in one step that will be
      authorized and published finds every commit so far in force. */
  predicate LandsInOrder(c: Setup, rs: RunState, op: Op) {
    var inForce := VersionInForce(rs.world.svc.log);
    match op
    case Apply(k) =>
      k < |rs.pool| && Lands(c, rs.world, rs.pool[k]) ==> rs.pool[k].newVersion == inForce + 1
    case Write(holder, readAt, _) =>
      Approved(c, rs.world, holder, readAt) && c.failAt != Some(DuringRename) ==>
        rs.world.svc.version == inForce
    case _ => true
  }

  predicate AllInOrder(c: Setup, rs: RunState, ops: seq<Op>) {
    ops != [] ==>
      && AllInOrder(c, rs, ops[..|ops| - 1])
      && LandsInOrder(c, Run(c, rs, ops[..|ops| - 1]), ops[|ops| - 1])
  }

  lemma {:induction false} GaplessShrinks(log: Log, log': Log)
    requires Gapless(log') && log <= log'
    ensures Gapless(log)
  {
    hide VersionInForce;
    forall j | 0 <= j < |log| && log[j].event.WriteAccepted?
      ensures log[j].event.version == VersionInForce(log[..j]) + 1
    {
      assert log'[j] == log[j] && log'[..j] == log[..j];
    }
  }

  /** One acceptance, and nothing else accepted around it. */
  lemma {:induction false} AcceptanceInOrder(log: Log, swept: Log, at: nat, event: Event, log': Log)
    requires WithoutAccepting(log, swept) && event.WriteAccepted?
    requires WithoutAccepting(Append(swept, at, event), log')
    ensures Gapless(log') <==> Gapless(log) && event.version == VersionInForce(log) + 1
  {
    hide Gapless, VersionInForce, WithoutAccepting;
    var accepted := Append(swept, at, event);
    InForceKept(log, swept);
    if Gapless(log) && event.version == VersionInForce(log) + 1 {
      GaplessExtends(log, swept);
      GaplessAccepted(swept, at, event);
      GaplessExtends(accepted, log');
    }
    if Gapless(log') {
      GrowsWithout(swept, log);
      GrowsWithout(log', accepted);
      GaplessShrinks(accepted, log');
      GaplessShrinks(log, accepted) by {
        GrowsWithout(swept, log);
      }
      LastIsInOrder(swept, at, event);
    }
  }

  lemma {:induction false} GrowsWithout(log': Log, log: Log)
    requires WithoutAccepting(log, log')
    ensures log <= log'
  {
  }

  lemma {:induction false} LastIsInOrder(log: Log, at: nat, event: Event)
    requires event.WriteAccepted? && Gapless(Append(log, at, event))
    ensures event.version == VersionInForce(log) + 1
  {
    hide VersionInForce;
    var log' := Append(log, at, event);
    assert log'[|log|].event == event && log'[..|log|] == log;
  }

  lemma {:induction false} AppliedInOrder(c: Setup, w: World, a: Authorized)
    ensures Gapless(Applied(c, w, a).0.svc.log) <==>
            Gapless(w.svc.log) && (Lands(c, w, a) ==> a.newVersion == VersionInForce(w.svc.log) + 1)
  {
    hide Gapless, VersionInForce, Swept, WithoutAccepting;
    var w' := Applied(c, w, a).0;
    AppliedLog(c, w, a);
    LandsMeans(c, w, a);
    if Lands(c, w, a) {
      var event := WriteAccepted(a.holding.holder, a.holding.ticket, a.newVersion, a.content);
      QuietWithout(w.svc.log, Swept(w.svc).log);
      AcceptanceInOrder(w.svc.log, Swept(w.svc).log, Swept(w.svc).now, event, w'.svc.log);
    } else {
      GaplessWithout(w.svc.log, w'.svc.log);
    }
  }

  lemma {:induction false} QuietWithout(log: Log, log': Log)
    requires Quietly(log, log')
    ensures WithoutAccepting(log, log')
  {
  }

  lemma {:induction false} GaplessWithout(log: Log, log': Log)
    requires WithoutAccepting(log, log')
    ensures Gapless(log') <==> Gapless(log)
  {
    hide Gapless;
    if Gapless(log) {
      GaplessExtends(log, log');
    }
    if Gapless(log') {
      GaplessShrinks(log, log');
    }
  }

  /** Authorizing accepts nothing; if it adds a token, that is the latest commit, staged. */
  lemma {:induction false} AuthorizeLands(
    c: Setup, rs: RunState, holder: HolderId, readAt: nat, content: Content)
    requires OwnOpen(rs.world)
    ensures var rs' := AuthorizeStep(c, rs, holder, readAt, content);
            && WithoutAccepting(rs.world.svc.log, rs'.world.svc.log)
            && (|rs.pool| < |rs'.pool| <==> Authorizing(c, rs.world, holder, readAt, content).1.Ok?)
            && |rs.pool| <= |rs'.pool|
            && (|rs.pool| < |rs'.pool| ==>
                  var a := rs'.pool[|rs.pool|];
                  && a.newVersion == rs.world.svc.version + 1
                  && (Lands(c, rs'.world, a) <==> c.failAt != Some(DuringRename)))
  {
    hide HoldForWrite, Submitted;
    AuthorizeInForce(c, rs, holder, readAt, content);
    HoldForWriteQuietly(c, rs.world, holder);
    match HoldForWrite(c, rs.world, holder)
    case (w, Err(_)) =>
    case (w, Ok(holding)) =>
      if Submitted(c, w, holder, holding, readAt, content).1.Ok? {
        SubmittedAuthorized(c, w, holder, holding, readAt, content);
      }
  }

  lemma {:induction false} StepInOrder(c: Setup, rs: RunState, op: Op)
    requires OwnOpen(rs.world) && Shape(c, rs.world.svc) && Newest(c, rs.world.svc)
    ensures Gapless(Step(c, rs, op).world.svc.log) <==> Gapless(rs.world.svc.log) && LandsInOrder(c, rs, op)
  {
    hide Gapless, VersionInForce, AuthorizeStep, Applied, Authorizing, Approved, Lands, WithoutAccepting, OwnOpen;
    hide ReadDone, Progressed, Abandoned, ForceReleased, ForceExpired, Swept;
    match op
    case Write(holder, readAt, content) =>
      var authorized := AuthorizeStep(c, rs, holder, readAt, content);
      AuthorizeLands(c, rs, holder, readAt, content);
      ApprovedExactly(c, rs.world, holder, readAt, content);
      GaplessWithout(rs.world.svc.log, authorized.world.svc.log);
      InForceKept(rs.world.svc.log, authorized.world.svc.log);
      if |rs.pool| < |authorized.pool| {
        AppliedInOrder(c, authorized.world, authorized.pool[|rs.pool|]);
      }
    case Authorize(holder, readAt, content) =>
      AuthorizeLands(c, rs, holder, readAt, content);
      GaplessWithout(rs.world.svc.log, AuthorizeStep(c, rs, holder, readAt, content).world.svc.log);
    case Apply(k) =>
      if k < |rs.pool| {
        AppliedInOrder(c, rs.world, rs.pool[k]);
      }
    case _ =>
      OtherStepsAcceptNothing(c, rs, op);
      GaplessWithout(rs.world.svc.log, Step(c, rs, op).world.svc.log);
  }

  lemma {:induction false} RunInOrder(c: Setup, file: Option<Content>, leftover: Option<Content>, ops: seq<Op>)
    ensures Gapless(Run(c, Start(file, leftover), ops).world.svc.log) <==> AllInOrder(c, Start(file, leftover), ops)
  {
    if ops == [] {
    } else {
      hide Gapless, LandsInOrder, Step, OwnOpen, Shape, Newest;
      RunInOrder(c, file, leftover, ops[..|ops| - 1]);
      RunOwn(c, file, leftover, ops[..|ops| - 1]);
      RunShape(c, file, leftover, ops[..|ops| - 1]);
      RunNewest(c, file, leftover, ops[..|ops| - 1]);
      StepInOrder(c, Run(c, Start(file, leftover), ops[..|ops| - 1]), ops[|ops| - 1]);
    }
  }

  /** P6 passes exactly when everything that landed, landed in order: each time, every commit before
      it had reached the file. */
  lemma {:induction false} P6InOrder(c: Setup, file: Option<Content>, leftover: Option<Content>, ops: seq<Op>)
    ensures P6Found(Run(c, Start(file, leftover), ops).world.svc.log) == [] <==>
            AllInOrder(c, Start(file, leftover), ops)
  {
    hide Run, Gapless, P6Found, AllInOrder;
    P6IsGapless(c, file, leftover, ops);
    RunInOrder(c, file, leftover, ops);
  }
}
