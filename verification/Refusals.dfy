/** What is refused: only what was proposed, and exactly when; so P4 in terms a caller could check. */
module Refusals {
  import opened Types
  import opened Histories
  import opened Stores
  import opened Locks
  import opened Harnesses
  import opened Runs
  import opened Checkers
  import opened CheckerMeaning
  import opened Effects
  import opened Commits
  import opened SplitRuns
  import opened AtomicRuns
  import opened Holds
  import opened Spans
  import opened Freshness
  import opened Growth
  import opened LockMeaning
  import opened HarnessMeaning
  import opened Scenarios

  // ---------- What was proposed

  /** Some operation proposed this content. */
  ghost predicate Proposes(ops: seq<Op>, content: Content) {
    exists i :: 0 <= i < |ops| && (ops[i].Write? || ops[i].Authorize?) && ops[i].content == content
  }

  /** Every refusal the log has gained is of this content, and whether there is one. */
  ghost predicate Refuses(log: Log, log': Log, content: Content, some: bool) {
    && log <= log'
    && (forall i | |log| <= i < |log'| && log'[i].event.WriteRefused? :: log'[i].event.content == content)
    && (some <==> exists i :: |log| <= i < |log'| && log'[i].event.WriteRefused?)
  }

  /** Everything refused, or still waiting, was proposed by one of these operations. */
  ghost predicate Sourced(rs: RunState, ops: seq<Op>) {
    && (forall i | 0 <= i < |rs.world.svc.log| && rs.world.svc.log[i].event.WriteRefused? ::
          Proposes(ops, rs.world.svc.log[i].event.content))
    && forall a | a in rs.pool :: Proposes(ops, a.content)
  }

  lemma {:induction false} QuietRefusesNothing(log: Log, log': Log, content: Content)
    requires Quietly(log, log')
    ensures Refuses(log, log', content, false)
  {
  }

  lemma {:induction false} OneEntryRefuses(log: Log, at: nat, event: Event, content: Content)
    requires event.WriteRefused? ==> event.content == content
    ensures Refuses(log, Append(log, at, event), content, event.WriteRefused?)
  {
    assert Append(log, at, event)[|log|].event == event;
  }

  lemma {:induction false} RefusesTwice(
    log: Log, log': Log, log'': Log, content: Content, some: bool, more: bool)
    requires Refuses(log, log', content, some) && Refuses(log', log'', content, more)
    ensures Refuses(log, log'', content, some || more)
  {
    assert forall i | 0 <= i < |log'| :: log''[i] == log'[i];
  }

  /** Submitting refuses exactly when it gets as far as the service's no. */
  lemma {:induction false} SubmittedRefuses(
    c: Setup, w: World, holder: HolderId, holding: Holding, readAt: nat, content: Content)
    ensures var (w', r) := Submitted(c, w, holder, holding, readAt, content);
            && Refuses(w.svc.log, w'.svc.log, content, r.Err? && c.failAt != Some(AfterTempWritten))
            && (r.Ok? ==> r.value.content == content)
  {
    hide Swept, Released, Tickets, InForce, Refuses;
    var event := WriteAttempted(holder, holding.ticket, readAt);
    var attempted := Record(w.svc, event);
    OneEntryRefuses(w.svc.log, w.svc.now, event, content);
    if c.failAt != Some(AfterTempWritten) {
      SweptQuietly(attempted);
      var (svc, r) := Committed(attempted, holding, readAt);
      QuietRefusesNothing(attempted.log, svc.log, content);
      RefusesTwice(w.svc.log, attempted.log, svc.log, content, false, false);
      if r.Err? {
        var refused := WriteRefused(holder, r.error, content);
        OneEntryRefuses(svc.log, svc.now, refused, content);
        RefusesTwice(w.svc.log, svc.log, Record(svc, refused).log, content, false, true);
        SettlingRefuses(c, w.svc.log, Record(svc, refused), holding, content, true);
      }
    }
  }

  /** Releasing refuses nothing. */
  lemma {:induction false} SettlingRefuses(
    c: Setup, log: Log, s: Service, holding: Holding, content: Content, some: bool)
    requires Refuses(log, s.log, content, some)
    ensures Refuses(log, Released(c, s, holding).log, content, some)
  {
    hide Released, Refuses;
    ReleasedQuietly(c, s, holding);
    QuietRefusesNothing(s.log, Released(c, s, holding).log, content);
    RefusesTwice(log, s.log, Released(c, s, holding).log, content, some, false);
  }

  /** Applying refuses exactly when the write has been overtaken. */
  lemma {:induction false} AppliedRefuses(c: Setup, w: World, a: Authorized)
    ensures Refuses(w.svc.log, Applied(c, w, a).0.svc.log, a.content, a.newVersion != w.svc.version)
  {
    hide Swept, Released, Refuses;
    var swept := Swept(w.svc);
    SweptQuietly(w.svc);
    QuietRefusesNothing(w.svc.log, swept.log, a.content);
    var refused := WriteRefused(a.holding.holder, StaleVersion(a.newVersion, swept.version), a.content);
    var accepted := WriteAccepted(a.holding.holder, a.holding.ticket, a.newVersion, a.content);
    OneEntryRefuses(swept.log, swept.now, refused, a.content);
    OneEntryRefuses(swept.log, swept.now, accepted, a.content);
    RefusesTwice(w.svc.log, swept.log, Record(swept, refused).log, a.content, false, true);
    RefusesTwice(w.svc.log, swept.log, Record(swept, accepted).log, a.content, false, false);
    SettlingRefuses(c, w.svc.log, Record(swept, refused), a.holding, a.content, true);
    SettlingRefuses(c, w.svc.log, Record(swept, accepted), a.holding, a.content, false);
  }

  lemma {:induction false} SourcedExtends(
    rs: RunState, rs': RunState, ops: seq<Op>, content: Content, some: bool)
    requires Sourced(rs, ops) && Refuses(rs.world.svc.log, rs'.world.svc.log, content, some)
    requires Proposes(ops, content) || !some
    requires forall a | a in rs'.pool :: a in rs.pool || Proposes(ops, a.content)
    ensures Sourced(rs', ops)
  {
    hide Proposes;
    forall i | 0 <= i < |rs'.world.svc.log| && rs'.world.svc.log[i].event.WriteRefused?
      ensures Proposes(ops, rs'.world.svc.log[i].event.content)
    {
      if i < |rs.world.svc.log| {
        assert rs'.world.svc.log[i] == rs.world.svc.log[i];
      }
    }
  }

  lemma {:induction false} AuthorizeRefuses(
    c: Setup, rs: RunState, holder: HolderId, readAt: nat, content: Content)
    requires OwnOpen(rs.world)
    ensures var rs' := AuthorizeStep(c, rs, holder, readAt, content);
            var asked := HoldForWrite(c, rs.world, holder).1.Ok? && c.failAt != Some(AfterTempWritten);
            && Refuses(rs.world.svc.log, rs'.world.svc.log, content,
                       asked && Authorizing(c, rs.world, holder, readAt, content).1.Err?)
            && forall a | a in rs'.pool :: a in rs.pool || a.content == content
  {
    hide HoldForWrite, Submitted, Refuses;
    HoldForWriteQuietly(c, rs.world, holder);
    var (w, r) := HoldForWrite(c, rs.world, holder);
    QuietRefusesNothing(rs.world.svc.log, w.svc.log, content);
    if r.Ok? {
      SubmittedRefuses(c, w, holder, r.value, readAt, content);
      var (w', s) := Submitted(c, w, holder, r.value, readAt, content);
      RefusesTwice(rs.world.svc.log, w.svc.log, w'.svc.log, content, false,
        s.Err? && c.failAt != Some(AfterTempWritten));
    }
  }

  lemma {:induction false} AuthorizeSourced(
    c: Setup, rs: RunState, holder: HolderId, readAt: nat, content: Content, ops: seq<Op>)
    requires Sourced(rs, ops) && OwnOpen(rs.world) && Proposes(ops, content)
    ensures Sourced(AuthorizeStep(c, rs, holder, readAt, content), ops)
  {
    hide Sourced, Proposes, HoldForWrite, AuthorizeStep, Authorizing, Refuses;
    AuthorizeRefuses(c, rs, holder, readAt, content);
    SourcedExtends(rs, AuthorizeStep(c, rs, holder, readAt, content), ops, content,
      HoldForWrite(c, rs.world, holder).1.Ok? && c.failAt != Some(AfterTempWritten)
      && Authorizing(c, rs.world, holder, readAt, content).1.Err?);
  }

  lemma {:induction false} ApplySourced(c: Setup, rs: RunState, k: nat, ops: seq<Op>)
    requires Sourced(rs, ops)
    ensures Sourced(ApplyStep(c, rs, k), ops)
  {
    hide Proposes, Applied, Refuses;
    if k < |rs.pool| {
      AppliedRefuses(c, rs.world, rs.pool[k]);
      SourcedExtends(rs, ApplyStep(c, rs, k), ops, rs.pool[k].content, rs.pool[k].newVersion != rs.world.svc.version);
    }
  }

  lemma {:induction false} StepSourced(c: Setup, rs: RunState, op: Op, ops: seq<Op>)
    requires Sourced(rs, ops) && OwnOpen(rs.world)
    requires (op.Write? || op.Authorize?) ==> Proposes(ops, op.content)
    ensures Sourced(Step(c, rs, op), ops)
  {
    hide Sourced, Proposes, AuthorizeStep, ApplyStep;
    match op
    case Write(holder, readAt, content) =>
      AuthorizeSourced(c, rs, holder, readAt, content, ops);
      ApplySourced(c, AuthorizeStep(c, rs, holder, readAt, content), |rs.pool|, ops);
    case Authorize(holder, readAt, content) =>
      AuthorizeSourced(c, rs, holder, readAt, content, ops);
    case Apply(k) =>
      ApplySourced(c, rs, k, ops);
    case _ =>
      hide Step;
      OtherStepsAcceptNothing(c, rs, op);
      QuietOrStill(c, rs, op);
      QuietRefusesNothing(rs.world.svc.log, Step(c, rs, op).world.svc.log, "");
      SourcedExtends(rs, Step(c, rs, op), ops, "", false);
  }

  lemma {:induction false} QuietOrStill(c: Setup, rs: RunState, op: Op)
    requires OwnOpen(rs.world) && !op.Write? && !op.Authorize? && !op.Apply?
    ensures Quietly(rs.world.svc.log, Step(c, rs, op).world.svc.log)
  {
    if !op.Advance? {
      hide Step;
      OtherStepsAcceptNothing(c, rs, op);
    }
  }

  lemma {:induction false} SourcedByMore(rs: RunState, ops: seq<Op>, op: Op)
    requires Sourced(rs, ops)
    ensures Sourced(rs, ops + [op])
  {
    forall content | Proposes(ops, content)
      ensures Proposes(ops + [op], content)
    {
      var i :| 0 <= i < |ops| && (ops[i].Write? || ops[i].Authorize?) && ops[i].content == content;
      assert (ops + [op])[i].content == content;
    }
  }

  lemma {:induction false} RunSourced(c: Setup, file: Option<Content>, leftover: Option<Content>, ops: seq<Op>)
    ensures Sourced(Run(c, Start(file, leftover), ops), ops)
  {
    if ops == [] {
    } else {
      var shorter, op := ops[..|ops| - 1], ops[|ops| - 1];
      var rs := Run(c, Start(file, leftover), shorter);
      assert (op.Write? || op.Authorize?) ==> Proposes(ops, op.content);
      assert ops == shorter + [op];
      hide Sourced, Step, Proposes;
      RunSourced(c, file, leftover, shorter);
      SourcedByMore(rs, shorter, op);
      RunOwn(c, file, leftover, shorter);
      StepSourced(c, rs, op, ops);
    }
  }

  /** Nothing is refused that was not proposed. */
  lemma {:induction false} RefusedWasProposed(
    c: Setup, file: Option<Content>, leftover: Option<Content>, ops: seq<Op>, content: Content)
    requires WasRefused(Run(c, Start(file, leftover), ops).world.svc.log, content)
    ensures Proposes(ops, content)
  {
    hide Run, Proposes;
    RunSourced(c, file, leftover, ops);
  }

  // ---------- Exactly when

  /** This operation will be refused with this content: a write that has a hold to use, gets as far as
      being decided and is not approved, or a waiting write that has been overtaken. */
  predicate WillRefuse(c: Setup, rs: RunState, op: Op, content: Content) {
    match op
    case Apply(k) =>
      k < |rs.pool| && rs.pool[k].newVersion != rs.world.svc.version && rs.pool[k].content == content
    case Write(holder, readAt, proposed) =>
      RefusesToAuthorize(c, rs.world, holder, readAt) && proposed == content
    case Authorize(holder, readAt, proposed) =>
      RefusesToAuthorize(c, rs.world, holder, readAt) && proposed == content
    case _ => false
  }

  predicate RefusesToAuthorize(c: Setup, w: World, holder: HolderId, readAt: nat) {
    Available(c, w, holder) && c.failAt != Some(AfterTempWritten) && !Approved(c, w, holder, readAt)
  }

  /** This operation will land a write. */
  predicate WillLand(c: Setup, rs: RunState, op: Op) {
    match op
    case Apply(k) => k < |rs.pool| && Lands(c, rs.world, rs.pool[k])
    case Write(holder, readAt, _) => Approved(c, rs.world, holder, readAt) && c.failAt != Some(DuringRename)
    case _ => false
  }

  predicate EverRefuses(c: Setup, rs: RunState, ops: seq<Op>, content: Content) {
    ops != [] &&
      (EverRefuses(c, rs, ops[..|ops| - 1], content)
       || WillRefuse(c, Run(c, rs, ops[..|ops| - 1]), ops[|ops| - 1], content))
  }

  predicate EverLands(c: Setup, rs: RunState, ops: seq<Op>) {
    ops != [] && (EverLands(c, rs, ops[..|ops| - 1]) || WillLand(c, Run(c, rs, ops[..|ops| - 1]), ops[|ops| - 1]))
  }

  lemma {:induction false} RefusedThen(log: Log, log': Log, content: Content, some: bool, x: Content)
    requires Refuses(log, log', content, some)
    ensures WasRefused(log', x) <==> WasRefused(log, x) || (some && x == content)
  {
    assert forall i | 0 <= i < |log| :: log'[i] == log[i];
  }

  /** A one-step write that is authorized is not overtaken. */
  lemma {:induction false} WriteRefuses(c: Setup, rs: RunState, holder: HolderId, readAt: nat, content: Content)
    requires OwnOpen(rs.world)
    ensures var asked := HoldForWrite(c, rs.world, holder).1.Ok? && c.failAt != Some(AfterTempWritten);
            Refuses(rs.world.svc.log, WriteStep(c, rs, holder, readAt, content).world.svc.log, content,
                    asked && Authorizing(c, rs.world, holder, readAt, content).1.Err?)
  {
    hide AuthorizeStep, Authorizing, HoldForWrite, Applied, Refuses;
    var authorized := AuthorizeStep(c, rs, holder, readAt, content);
    AuthorizeRefuses(c, rs, holder, readAt, content);
    AuthorizeLands(c, rs, holder, readAt, content);
    if |rs.pool| < |authorized.pool| {
      var a := authorized.pool[|rs.pool|];
      FreshToken(c, rs, holder, readAt, content);
      AppliedRefuses(c, authorized.world, a);
      RefusesTwice(rs.world.svc.log, authorized.world.svc.log, Applied(c, authorized.world, a).0.svc.log, content,
        false, false);
    }
  }

  /** The token just made is the latest commit, on this content. */
  lemma {:induction false} FreshToken(c: Setup, rs: RunState, holder: HolderId, readAt: nat, content: Content)
    ensures var rs' := AuthorizeStep(c, rs, holder, readAt, content);
            |rs.pool| < |rs'.pool| ==>
              rs'.pool[|rs.pool|].newVersion == rs'.world.svc.version && rs'.pool[|rs.pool|].content == content
  {
    hide HoldForWrite, Submitted;
    match HoldForWrite(c, rs.world, holder)
    case (_, Err(_)) =>
    case (w, Ok(holding)) =>
      if Submitted(c, w, holder, holding, readAt, content).1.Ok? {
        SubmittedAuthorized(c, w, holder, holding, readAt, content);
      }
  }

  lemma {:induction false} StepRefusal(c: Setup, rs: RunState, op: Op, x: Content)
    requires OwnOpen(rs.world) && Shape(c, rs.world.svc) && Newest(c, rs.world.svc)
    ensures WasRefused(Step(c, rs, op).world.svc.log, x) <==>
            WasRefused(rs.world.svc.log, x) || WillRefuse(c, rs, op, x)
  {
    hide WasRefused, Refuses, AuthorizeStep, WriteStep, Authorizing, HoldForWrite, Applied, Approved, Available;
    hide OwnOpen, Shape, Newest, ReadDone, Progressed, Abandoned, ForceReleased, ForceExpired, Swept;
    var log, log' := rs.world.svc.log, Step(c, rs, op).world.svc.log;
    match op
    case Write(holder, readAt, content) =>
      AvailableExactly(c, rs.world, holder);
      ApprovedExactly(c, rs.world, holder, readAt, content);
      WriteRefuses(c, rs, holder, readAt, content);
      RefusedThen(log, log', content, RefusesToAuthorize(c, rs.world, holder, readAt), x);
    case Authorize(holder, readAt, content) =>
      AvailableExactly(c, rs.world, holder);
      ApprovedExactly(c, rs.world, holder, readAt, content);
      AuthorizeRefuses(c, rs, holder, readAt, content);
      RefusedThen(log, log', content, RefusesToAuthorize(c, rs.world, holder, readAt), x);
    case Apply(k) =>
      if k < |rs.pool| {
        AppliedRefuses(c, rs.world, rs.pool[k]);
        RefusedThen(log, log', rs.pool[k].content, rs.pool[k].newVersion != rs.world.svc.version, x);
      }
    case _ =>
      QuietOrStill(c, rs, op);
      QuietRefusesNothing(log, log', x);
      RefusedThen(log, log', x, false, x);
  }

  /** What is refused, and with what content, is told by what each call meets. */
  lemma {:induction false} RunRefusal(
    c: Setup, file: Option<Content>, leftover: Option<Content>, ops: seq<Op>, x: Content)
    ensures WasRefused(Run(c, Start(file, leftover), ops).world.svc.log, x) <==>
            EverRefuses(c, Start(file, leftover), ops, x)
  {
    if ops == [] {
    } else {
      hide WillRefuse, Step, OwnOpen, Shape, Newest, WasRefused;
      var before := ops[..|ops| - 1];
      RunRefusal(c, file, leftover, before, x);
      RunOwn(c, file, leftover, before);
      RunShape(c, file, leftover, before);
      RunNewest(c, file, leftover, before);
      StepRefusal(c, Run(c, Start(file, leftover), before), ops[|ops| - 1], x);
    }
  }

  lemma {:induction false} AcceptedThen(swept: Log, at: nat, event: Event, log': Log)
    requires event.WriteAccepted? && WithoutAccepting(Append(swept, at, event), log')
    ensures LastAccepted(log').Some?
  {
    InForceKept(Append(swept, at, event), log');
  }

  lemma {:induction false} AppliedAccepts(c: Setup, w: World, a: Authorized)
    ensures LastAccepted(Applied(c, w, a).0.svc.log).Some? <==> LastAccepted(w.svc.log).Some? || Lands(c, w, a)
  {
    hide LastAccepted, Swept, WithoutAccepting;
    var w' := Applied(c, w, a).0;
    AppliedLog(c, w, a);
    LandsMeans(c, w, a);
    if Lands(c, w, a) {
      AcceptedThen(Swept(w.svc).log, Swept(w.svc).now,
        WriteAccepted(a.holding.holder, a.holding.ticket, a.newVersion, a.content), w'.svc.log);
    } else {
      InForceKept(w.svc.log, w'.svc.log);
    }
  }

  lemma {:induction false} StepAccepts(c: Setup, rs: RunState, op: Op)
    requires OwnOpen(rs.world) && Shape(c, rs.world.svc) && Newest(c, rs.world.svc)
    ensures LastAccepted(Step(c, rs, op).world.svc.log).Some? <==>
            LastAccepted(rs.world.svc.log).Some? || WillLand(c, rs, op)
  {
    hide LastAccepted, AuthorizeStep, Applied, Authorizing, Approved, Lands, WithoutAccepting, OwnOpen, Shape, Newest;
    hide ReadDone, Progressed, Abandoned, ForceReleased, ForceExpired, Swept;
    match op
    case Write(holder, readAt, content) =>
      var authorized := AuthorizeStep(c, rs, holder, readAt, content);
      AuthorizeLands(c, rs, holder, readAt, content);
      ApprovedExactly(c, rs.world, holder, readAt, content);
      InForceKept(rs.world.svc.log, authorized.world.svc.log);
      if |rs.pool| < |authorized.pool| {
        AppliedAccepts(c, authorized.world, authorized.pool[|rs.pool|]);
      }
    case Authorize(holder, readAt, content) =>
      AuthorizeLands(c, rs, holder, readAt, content);
      InForceKept(rs.world.svc.log, AuthorizeStep(c, rs, holder, readAt, content).world.svc.log);
    case Apply(k) =>
      if k < |rs.pool| {
        AppliedAccepts(c, rs.world, rs.pool[k]);
      }
    case _ =>
      OtherStepsAcceptNothing(c, rs, op);
      InForceKept(rs.world.svc.log, Step(c, rs, op).world.svc.log);
  }

  /** And so is whether anything is accepted. */
  lemma {:induction false} RunAccepts(c: Setup, file: Option<Content>, leftover: Option<Content>, ops: seq<Op>)
    ensures LastAccepted(Run(c, Start(file, leftover), ops).world.svc.log).Some? <==>
            EverLands(c, Start(file, leftover), ops)
  {
    if ops == [] {
    } else {
      hide WillLand, Step, OwnOpen, Shape, Newest, LastAccepted;
      var before := ops[..|ops| - 1];
      RunAccepts(c, file, leftover, before);
      RunOwn(c, file, leftover, before);
      RunShape(c, file, leftover, before);
      RunNewest(c, file, leftover, before);
      StepAccepts(c, Run(c, Start(file, leftover), before), ops[|ops| - 1]);
    }
  }

  /** P4 fails exactly when no operation lands a write and some operation is refused that proposes the
      very content the file started with: told before each call. */
  lemma {:induction false} P4InOperations(
    c: Setup, file: Option<Content>, leftover: Option<Content>, ops: seq<Op>)
    ensures var w := Run(c, Start(file, leftover), ops).world;
            P4Found(w.svc.log, ReadBack(w.store.target), ReadBack(file)) == [] <==>
            EverLands(c, Start(file, leftover), ops) || !EverRefuses(c, Start(file, leftover), ops, ReadBack(file))
  {
    hide Run, P4Found, EverLands, EverRefuses, WasRefused, LastAccepted;
    P4Exactly(c, file, leftover, ops);
    RunAccepts(c, file, leftover, ops);
    RunRefusal(c, file, leftover, ops, ReadBack(file));
  }

  // ---------- What a refusal does to whoever is waiting

  /** Somebody will be refused by this operation. */
  ghost predicate RefusesSome(c: Setup, rs: RunState, op: Op) {
    exists x :: WillRefuse(c, rs, op, x)
  }

  ghost predicate EverRefusesSome(c: Setup, rs: RunState, ops: seq<Op>) {
    ops != [] &&
      (EverRefusesSome(c, rs, ops[..|ops| - 1]) || RefusesSome(c, Run(c, rs, ops[..|ops| - 1]), ops[|ops| - 1]))
  }

  lemma {:induction false} AuthorizeSlot(
    c: Setup, rs: RunState, holder: HolderId, readAt: nat, content: Content)
    requires Shape(c, rs.world.svc) && Newest(c, rs.world.svc) && c.failAt != Some(AfterTempWritten)
    ensures var rs' := AuthorizeStep(c, rs, holder, readAt, content);
            && (RefusesToAuthorize(c, rs.world, holder, readAt) ==> rs'.world.store.tmp == None)
            && (Approved(c, rs.world, holder, readAt) ==>
                  rs'.commits != rs.commits && rs'.world.store.tmp == Some(content) && |rs.pool| < |rs'.pool|)
            && (!Available(c, rs.world, holder) ==> rs'.world.store == rs.world.store)
            && (!Approved(c, rs.world, holder, readAt) ==> |rs'.pool| == |rs.pool| && rs'.commits == rs.commits)
  {
    hide HoldForWrite, Submitted, Approved, Available, Shape, Newest, Yes, Adds, LapseEvents, Swept, Released;
    AvailableExactly(c, rs.world, holder);
    ApprovedExactly(c, rs.world, holder, readAt, content);
    HoldForWriteMeans(c, rs.world, holder);
    ApprovedIsAvailable(c, rs.world, holder, readAt);
    match HoldForWrite(c, rs.world, holder)
    case (_, Err(_)) =>
    case (w, Ok(holding)) => SubmittedMeans(c, w, holder, holding, readAt, content);
  }

  lemma {:induction false} ApprovedIsAvailable(c: Setup, w: World, holder: HolderId, readAt: nat)
    ensures Approved(c, w, holder, readAt) ==> Available(c, w, holder)
  {
  }

  /** Short of a commit and of landing, an operation touches the slot exactly if it is refused: it then
      empties it, whoever staged into it. */
  lemma {:induction false} StepSlot(c: Setup, rs: RunState, op: Op)
    requires OwnOpen(rs.world) && Shape(c, rs.world.svc) && Newest(c, rs.world.svc)
    requires c.failAt != Some(AfterTempWritten)
    requires Step(c, rs, op).commits == rs.commits && !WillLand(c, rs, op)
    ensures Step(c, rs, op).world.store.tmp == if RefusesSome(c, rs, op) then None else rs.world.store.tmp
  {
    hide AuthorizeStep, Applied, Approved, Available, OwnOpen, Shape, Newest, Released, Adds, LapseEvents;
    hide ReadDone, Progressed, Abandoned, ForceReleased, ForceExpired, Swept;
    match op
    case Write(holder, readAt, content) =>
      AuthorizeSlot(c, rs, holder, readAt, content);
      ApprovedIsAvailable(c, rs.world, holder, readAt);
      assert RefusesToAuthorize(c, rs.world, holder, readAt) <==> WillRefuse(c, rs, op, content);
    case Authorize(holder, readAt, content) =>
      AuthorizeSlot(c, rs, holder, readAt, content);
      ApprovedIsAvailable(c, rs.world, holder, readAt);
      assert RefusesToAuthorize(c, rs.world, holder, readAt) <==> WillRefuse(c, rs, op, content);
    case Apply(k) =>
      if k < |rs.pool| {
        AppliedMeans(c, rs.world, rs.pool[k]);
        assert rs.pool[k].newVersion != rs.world.svc.version <==> WillRefuse(c, rs, op, rs.pool[k].content);
      }
    case _ =>
      OtherStepsAcceptNothing(c, rs, op);
  }

  /** From any point of any run on, as long as nothing is committed and nothing lands, what is staged
      stays staged exactly as long as nobody is refused. */
  lemma {:induction false} StagedUntilRefused(
    c: Setup, file: Option<Content>, leftover: Option<Content>, past: seq<Op>, since: seq<Op>)
    requires c.failAt != Some(AfterTempWritten)
    requires var rs := Run(c, Start(file, leftover), past);
             Run(c, rs, since).commits == rs.commits && !EverLands(c, rs, since)
    ensures var rs := Run(c, Start(file, leftover), past);
            Run(c, rs, since).world.store.tmp == if EverRefusesSome(c, rs, since) then None else rs.world.store.tmp
  {
    if since == [] {
    } else {
      var shorter := since[..|since| - 1];
      var rs := Run(c, Start(file, leftover), past);
      var before := Run(c, rs, shorter);
      hide Step, RefusesSome, WillLand, OwnOpen, Shape, Newest;
      RunCommits(c, rs, shorter);
      StepCommits(c, before, since[|since| - 1]);
      StagedUntilRefused(c, file, leftover, past, shorter);
      RunConcat(c, Start(file, leftover), past, shorter);
      RunOwn(c, file, leftover, past + shorter);
      RunShape(c, file, leftover, past + shorter);
      RunNewest(c, file, leftover, past + shorter);
      StepSlot(c, before, since[|since| - 1]);
    }
  }

  /** An authorized write that is still the latest commit and has not been applied can be applied
      exactly if nobody at all has been refused since, and renames work: a refusal, anybody's, deletes
      what it staged. */
  lemma {:induction false} WaitingLandsUnlessSomeoneIsRefused(
    c: Setup, file: Option<Content>, leftover: Option<Content>,
    past: seq<Op>, holder: HolderId, readAt: nat, content: Content, since: seq<Op>)
    requires var rs := Run(c, Start(file, leftover), past);
             var rs1 := Run(c, Start(file, leftover), past + [Op.Authorize(holder, readAt, content)]);
             && Approved(c, rs.world, holder, readAt)
             && Run(c, rs1, since).commits == rs1.commits && !EverLands(c, rs1, since)
    ensures var rs := Run(c, Start(file, leftover), past);
            var rs1 := Run(c, Start(file, leftover), past + [Op.Authorize(holder, readAt, content)]);
            && |rs1.pool| == |rs.pool| + 1
            && var a := rs1.pool[|rs.pool|];
               && a.content == content && a.newVersion == |rs1.commits|
               && (Lands(c, Run(c, rs1, since).world, a) <==>
                     !EverRefusesSome(c, rs1, since) && c.failAt != Some(DuringRename))
  {
    hide Run, Step, Approved, EverRefusesSome, EverLands, OwnOpen;
    var op := Op.Authorize(holder, readAt, content);
    RunMore(c, Start(file, leftover), past, op);
    RunCounts(c, file, leftover, past + [op]);
    RunCounts(c, file, leftover, past + [op] + since);
    RunConcat(c, Start(file, leftover), past + [op], since);
    RunShape(c, file, leftover, past);
    RunNewest(c, file, leftover, past);
    NowWaiting(c, Run(c, Start(file, leftover), past), holder, readAt, content);
    StagedUntilRefused(c, file, leftover, past + [op], since);
  }

  /** An approved authorization stages its content, and waits as the latest commit. */
  lemma {:induction false} NowWaiting(c: Setup, rs: RunState, holder: HolderId, readAt: nat, content: Content)
    requires Shape(c, rs.world.svc) && Newest(c, rs.world.svc) && Approved(c, rs.world, holder, readAt)
    ensures var rs1 := Step(c, rs, Op.Authorize(holder, readAt, content));
            && c.failAt != Some(AfterTempWritten)
            && rs1.world.store.tmp == Some(content)
            && |rs1.pool| == |rs.pool| + 1
            && rs1.pool[|rs.pool|].content == content
            && rs1.pool[|rs.pool|].newVersion == rs1.world.svc.version
  {
    ApprovedStages(c, rs, holder, readAt, content);
    hide AuthorizeStep, Approved, Shape, Newest;
    AuthorizeSlot(c, rs, holder, readAt, content);
    PoolGrew(c, rs, holder, readAt, content);
    FreshToken(c, rs, holder, readAt, content);
  }

  lemma {:induction false} ApprovedStages(c: Setup, rs: RunState, holder: HolderId, readAt: nat, content: Content)
    requires Approved(c, rs.world, holder, readAt)
    ensures c.failAt != Some(AfterTempWritten)
  {
  }

  lemma {:induction false} PoolGrew(c: Setup, rs: RunState, holder: HolderId, readAt: nat, content: Content)
    ensures |AuthorizeStep(c, rs, holder, readAt, content).pool| <= |rs.pool| + 1
  {
    hide HoldForWrite, Submitted;
  }
}
