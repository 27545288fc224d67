/** Under every fault: every open entry and every attempted write goes back to a grant in the log. */
module Attempts {
  import opened Types
  import opened Histories
  import opened Locks
  import opened Harnesses
  import opened Runs
  import opened ServiceCalls
  import opened Effects
  import opened Growth

  /** The entry at i grants this ticket to this holder. */
  ghost predicate GrantAt(log: Log, i: int, holder: HolderId, ticket: nat) {
    0 <= i < |log| && log[i].event == TakeGranted(holder, ticket)
  }

  /** An open entry is filed under its own holder, at the moment of a grant of its ticket to it. */
  ghost predicate OpenBacked(s: Service, k: HolderId, o: Open) {
    && o.holding.holder == k
    && o.takenAt <= s.now
    && exists i :: GrantAt(s.log, i, k, o.holding.ticket) && s.log[i].at == o.takenAt
  }

  ghost predicate OpensBacked(w: World) {
    forall k | k in w.open :: OpenBacked(w.svc, k, w.open[k])
  }

  /** The attempt at j is on an earlier grant to the same agent and, under the full span, comes
      before that grant's ceiling. */
  ghost predicate AttemptBacked(c: Setup, log: Log, j: int)
    requires 0 <= j < |log| && log[j].event.WriteAttempted?
  {
    exists i :: i < j && GrantAt(log, i, log[j].event.holder, log[j].event.ticket)
                && (c.span == Full ==> log[j].at < log[i].at + c.holdCeiling)
  }

  ghost predicate AttemptsBacked(c: Setup, log: Log) {
    forall j | 0 <= j < |log| && log[j].event.WriteAttempted? :: AttemptBacked(c, log, j)
  }

  /** Entries were logged in the order of the clock. */
  ghost predicate TimesOk(s: Service) {
    && (forall i, j | 0 <= i < j < |s.log| :: s.log[i].at <= s.log[j].at)
    && forall i | 0 <= i < |s.log| :: s.log[i].at <= s.now
  }

  ghost predicate Backed(c: Setup, w: World) {
    TimesOk(w.svc) && OpensBacked(w) && AttemptsBacked(c, w.svc.log)
  }

  // ---------- Growth keeps what was there

  lemma {:induction false} TimesGrow(s: Service, s': Service)
    requires TimesOk(s) && Grows(s, s')
    ensures TimesOk(s')
  {
    assert forall i | 0 <= i < |s.log| :: s'.log[i] == s.log[i];
  }

  lemma {:induction false} OpenGrows(s: Service, s': Service, k: HolderId, o: Open)
    requires OpenBacked(s, k, o) && Grows(s, s')
    ensures OpenBacked(s', k, o)
  {
    var i :| GrantAt(s.log, i, k, o.holding.ticket) && s.log[i].at == o.takenAt;
    assert GrantAt(s'.log, i, k, o.holding.ticket) && s'.log[i].at == o.takenAt;
  }

  lemma {:induction false} AttemptGrows(c: Setup, log: Log, log': Log, j: int)
    requires log <= log' && 0 <= j < |log| && log[j].event.WriteAttempted? && AttemptBacked(c, log, j)
    ensures AttemptBacked(c, log', j)
  {
    var i :| i < j && GrantAt(log, i, log[j].event.holder, log[j].event.ticket)
             && (c.span == Full ==> log[j].at < log[i].at + c.holdCeiling);
    assert GrantAt(log', i, log'[j].event.holder, log'[j].event.ticket);
  }

  /** The log grew without an attempt. */
  ghost predicate Attemptless(log: Log, log': Log) {
    log <= log' && forall i | |log| <= i < |log'| :: !log'[i].event.WriteAttempted?
  }

  lemma {:induction false} AttemptsGrow(c: Setup, log: Log, log': Log)
    requires AttemptsBacked(c, log) && Attemptless(log, log')
    ensures AttemptsBacked(c, log')
  {
    hide AttemptBacked;
    forall j | 0 <= j < |log'| && log'[j].event.WriteAttempted?
      ensures AttemptBacked(c, log', j)
    {
      assert j < |log| && log'[j] == log[j];
      AttemptGrows(c, log, log', j);
    }
  }

  /** Entries were only closed, or opened on a grant just made. */
  ghost predicate OpensFrom(w: World, w': World) {
    forall k | k in w'.open :: (k in w.open && w'.open[k] == w.open[k]) || OpenBacked(w'.svc, k, w'.open[k])
  }

  lemma {:induction false} OpensGrow(w: World, w': World)
    requires OpensBacked(w) && OpensFrom(w, w') && Grows(w.svc, w'.svc)
    ensures OpensBacked(w')
  {
    hide OpenBacked, Grows;
    forall k | k in w'.open
      ensures OpenBacked(w'.svc, k, w'.open[k])
    {
      if k in w.open && w'.open[k] == w.open[k] {
        OpenGrows(w.svc, w'.svc, k, w.open[k]);
      }
    }
  }

  // ---------- Each operation

  lemma {:induction false} TakenIsLogged(c: Setup, s: Service, holder: HolderId)
    requires Acquired(c, s, holder).1.Ok?
    ensures var (s', r) := Acquired(c, s, holder);
            && s'.now == s.now
            && r.value.holder == holder
            && GrantAt(s'.log, |s'.log| - 1, holder, r.value.ticket)
            && s'.log[|s'.log| - 1].at == s.now
  {
    hide Alive, Lapsed, Expiries, AppendAll;
  }

  lemma {:induction false} ReadOpens(c: Setup, w: World, holder: HolderId)
    ensures OpensFrom(w, ReadDone(c, w, holder).0)
  {
    hide Acquired, Swept, Reaches, Grows;
    if c.span == Full && Acquired(c, w.svc, holder).1.Ok? {
      var (svc, r) := Acquired(c, w.svc, holder);
      TakenIsLogged(c, w.svc, holder);
      var o := Open(r.value, w.svc.now);
      assert OpenBacked(svc, holder, o);
      SweptGrows(svc);
      OpenGrows(svc, ReadDone(c, w, holder).0.svc, holder, o);
    }
  }

  /** The hold a write will use goes back to a grant and, under the full span, is in time. */
  ghost predicate HoldBacked(c: Setup, s: Service, holder: HolderId, ticket: nat) {
    exists i :: GrantAt(s.log, i, holder, ticket) && (c.span == Full ==> s.now < s.log[i].at + c.holdCeiling)
  }

  lemma {:induction false} HoldIsBacked(c: Setup, w: World, holder: HolderId)
    requires OpensBacked(w) && HoldForWrite(c, w, holder).1.Ok?
    ensures var (w', r) := HoldForWrite(c, w, holder);
            r.value.holder == holder && HoldBacked(c, w'.svc, holder, r.value.ticket)
  {
    hide Acquired;
    if c.span == WriteOnly {
      TakenIsLogged(c, w.svc, holder);
      var (svc, r) := Acquired(c, w.svc, holder);
      assert GrantAt(svc.log, |svc.log| - 1, holder, r.value.ticket);
    } else {
      assert OpenBacked(w.svc, holder, w.open[holder]);
    }
  }

  lemma {:induction false} AttemptedBacked(c: Setup, s: Service, holder: HolderId, ticket: nat, readAt: nat)
    requires AttemptsBacked(c, s.log) && HoldBacked(c, s, holder, ticket)
    ensures AttemptsBacked(c, Record(s, WriteAttempted(holder, ticket, readAt)).log)
  {
    var log' := Record(s, WriteAttempted(holder, ticket, readAt)).log;
    var i :| GrantAt(s.log, i, holder, ticket) && (c.span == Full ==> s.now < s.log[i].at + c.holdCeiling);
    assert GrantAt(log', i, holder, ticket);
    assert AttemptBacked(c, log', |s.log|);
    hide AttemptBacked;
    forall j | 0 <= j < |log'| && log'[j].event.WriteAttempted?
      ensures AttemptBacked(c, log', j)
    {
      if j < |s.log| {
        AttemptGrows(c, s.log, log', j);
      }
    }
  }

  /** After the attempt itself, submitting logs no other. */
  lemma {:induction false} SubmittedAttempts(
    c: Setup, w: World, holder: HolderId, holding: Holding, readAt: nat, content: Content)
    ensures var attempted := Record(w.svc, WriteAttempted(holder, holding.ticket, readAt));
            Attemptless(attempted.log, Submitted(c, w, holder, holding, readAt, content).0.svc.log)
    ensures Submitted(c, w, holder, holding, readAt, content).0.open == w.open
  {
    hide Swept, Released, Tickets, InForce;
    var attempted := Record(w.svc, WriteAttempted(holder, holding.ticket, readAt));
    SweptQuietly(attempted);
    var (svc, r) := Committed(attempted, holding, readAt);
    if r.Err? {
      var refused := Record(svc, WriteRefused(holder, r.error, content));
      assert Attemptless(attempted.log, refused.log);
      ReleasedQuietly(c, refused, holding);
    }
  }

  lemma {:induction false} AppliedAttempts(c: Setup, w: World, a: Authorized)
    ensures Attemptless(w.svc.log, Applied(c, w, a).0.svc.log)
    ensures OpensFrom(w, Applied(c, w, a).0)
  {
    hide Swept, Released;
    SweptQuietly(w.svc);
    var swept := Swept(w.svc);
    var refused := Record(swept, WriteRefused(a.holding.holder, StaleVersion(a.newVersion, swept.version), a.content));
    var accepted := Record(swept, WriteAccepted(a.holding.holder, a.holding.ticket, a.newVersion, a.content));
    ReleasedQuietly(c, refused, a.holding);
    ReleasedQuietly(c, accepted, a.holding);
    assert Attemptless(w.svc.log, refused.log) && Attemptless(w.svc.log, accepted.log);
  }

  lemma {:induction false} AuthorizeBacked(
    c: Setup, rs: RunState, holder: HolderId, readAt: nat, content: Content)
    requires OpensBacked(rs.world) && AttemptsBacked(c, rs.world.svc.log)
    ensures var rs' := AuthorizeStep(c, rs, holder, readAt, content);
            AttemptsBacked(c, rs'.world.svc.log) && rs'.world.open == rs.world.open
  {
    hide HoldForWrite, Submitted, OpensBacked, AttemptsBacked, HoldBacked, Attemptless;
    HoldAttempts(c, rs.world, holder);
    match HoldForWrite(c, rs.world, holder)
    case (w, Err(_)) =>
      AttemptsGrow(c, rs.world.svc.log, w.svc.log);
    case (w, Ok(holding)) =>
      AttemptsGrow(c, rs.world.svc.log, w.svc.log);
      HoldIsBacked(c, rs.world, holder);
      AttemptedBacked(c, w.svc, holder, holding.ticket, readAt);
      SubmittedAttempts(c, w, holder, holding, readAt, content);
      AttemptsGrow(c, Record(w.svc, WriteAttempted(holder, holding.ticket, readAt)).log,
        Submitted(c, w, holder, holding, readAt, content).0.svc.log);
  }

  lemma {:induction false} HoldAttempts(c: Setup, w: World, holder: HolderId)
    ensures var w' := HoldForWrite(c, w, holder).0;
            Attemptless(w.svc.log, w'.svc.log) && w'.open == w.open
  {
    hide Acquired;
    AcquiredQuietly(c, w.svc, holder);
  }

  lemma {:induction false} ApplyBacked(c: Setup, rs: RunState, k: nat)
    requires AttemptsBacked(c, rs.world.svc.log)
    ensures var rs' := ApplyStep(c, rs, k);
            AttemptsBacked(c, rs'.world.svc.log) && OpensFrom(rs.world, rs'.world)
  {
    hide Applied, AttemptsBacked, Attemptless;
    if k < |rs.pool| {
      AppliedAttempts(c, rs.world, rs.pool[k]);
      AttemptsGrow(c, rs.world.svc.log, Applied(c, rs.world, rs.pool[k]).0.svc.log);
    }
  }

  /** Operations other than the two phases log no attempt. */
  lemma {:induction false} OthersAttempt(c: Setup, rs: RunState, op: Op)
    requires OwnOpen(rs.world) && !op.Write? && !op.Authorize? && !op.Apply?
    ensures Attemptless(rs.world.svc.log, Step(c, rs, op).world.svc.log)
    ensures OpensFrom(rs.world, Step(c, rs, op).world)
  {
    hide ReadDone, Progressed, Abandoned, ForceReleased, ForceExpired, Swept;
    var w := rs.world;
    match op
    case Advance(_) =>
    case Read(holder) =>
      ReadQuietly(c, w, holder);
      ReadOpens(c, w, holder);
    case Progress(holder) =>
      ProgressQuietly(c, w, holder);
      ProgressOpens(c, w, holder);
    case Abandon(holder) =>
      AbandonQuietly(c, w, holder);
      AbandonOpens(c, w, holder);
    case ForceRelease => ForceReleasedQuietly(w.svc);
    case ForceExpire => ForceExpiredQuietly(w.svc);
    case Probe => SweptQuietly(w.svc);
    case NoteFinished(_) =>
    case NoteWedged(_) =>
  }

  lemma {:induction false} ProgressOpens(c: Setup, w: World, holder: HolderId)
    ensures Progressed(c, w, holder).0.open == w.open
  {
    hide Renewed;
  }

  lemma {:induction false} AbandonOpens(c: Setup, w: World, holder: HolderId)
    ensures OpensFrom(w, Abandoned(c, w, holder))
  {
    hide Released, OpenBacked;
  }

  lemma {:induction false} BackedIsOwn(w: World)
    requires OpensBacked(w)
    ensures OwnOpen(w)
  {
    assert forall k | k in w.open :: OpenBacked(w.svc, k, w.open[k]);
  }

  lemma {:induction false} StepBacked(c: Setup, rs: RunState, op: Op)
    requires Backed(c, rs.world)
    ensures Backed(c, Step(c, rs, op).world)
  {
    hide Grows, TimesOk, OpensBacked, AttemptsBacked, AuthorizeStep, ApplyStep, OpenBacked, Attemptless;
    StepGrows(c, rs, op);
    TimesGrow(rs.world.svc, Step(c, rs, op).world.svc);
    match op
    case Write(holder, readAt, content) =>
      AuthorizeBacked(c, rs, holder, readAt, content);
      ApplyBacked(c, AuthorizeStep(c, rs, holder, readAt, content), |rs.pool|);
      OpensGrow(rs.world, Step(c, rs, op).world);
    case Authorize(holder, readAt, content) =>
      AuthorizeBacked(c, rs, holder, readAt, content);
      OpensGrow(rs.world, Step(c, rs, op).world);
    case Apply(k) =>
      ApplyBacked(c, rs, k);
      OpensGrow(rs.world, Step(c, rs, op).world);
    case _ =>
      BackedIsOwn(rs.world);
      hide Step;
      OthersAttempt(c, rs, op);
      AttemptsGrow(c, rs.world.svc.log, Step(c, rs, op).world.svc.log);
      OpensGrow(rs.world, Step(c, rs, op).world);
  }

  lemma {:induction false} RunBacked(c: Setup, file: Option<Content>, leftover: Option<Content>, ops: seq<Op>)
    ensures Backed(c, Run(c, Start(file, leftover), ops).world)
  {
    if ops == [] {
    } else {
      hide Backed, Step;
      RunBacked(c, file, leftover, ops[..|ops| - 1]);
      StepBacked(c, Run(c, Start(file, leftover), ops[..|ops| - 1]), ops[|ops| - 1]);
    }
  }

  /** Every attempted write is on an earlier grant to the same agent and, under the full span, comes
      strictly before that grant's hold ceiling, whatever the faults. */
  lemma {:induction false} NoWriteAtTheCeiling(
    c: Setup, file: Option<Content>, leftover: Option<Content>, ops: seq<Op>, j: nat) returns (i: nat)
    requires j < |Run(c, Start(file, leftover), ops).world.svc.log|
    requires Run(c, Start(file, leftover), ops).world.svc.log[j].event.WriteAttempted?
    ensures var log := Run(c, Start(file, leftover), ops).world.svc.log;
            && i < j
            && log[i].event == TakeGranted(log[j].event.holder, log[j].event.ticket)
            && (c.span == Full ==> log[j].at < log[i].at + c.holdCeiling)
  {
    hide Run, OpensBacked, TimesOk;
    var log := Run(c, Start(file, leftover), ops).world.svc.log;
    RunBacked(c, file, leftover, ops);
    assert AttemptBacked(c, log, j);
    i :| i < j && GrantAt(log, i, log[j].event.holder, log[j].event.ticket)
         && (c.span == Full ==> log[j].at < log[i].at + c.holdCeiling);
  }
}
