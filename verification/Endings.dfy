/** Who a run's history is about: exactly the agents who read, or were noted, or took a hold to write.
    So P7 passes exactly when each of them has been noted as finished or wedged. */
module Endings {
  import opened Types
  import opened Histories
  import opened Locks
  import opened HoldLists
  import opened Harnesses
  import opened Runs
  import opened ServiceCalls
  import opened Growth
  import opened Checkers
  import opened CheckerMeaning
  import opened LockMeaning
  import opened HarnessMeaning
  import opened Commits

  // ---------- The service's part

  predicate EventNamed(event: Event, names: set<HolderId>) {
    HolderOf(event).Some? ==> HolderOf(event).value in names
  }

  /** Holds and entries are in these names. */
  ghost predicate Named(s: Service, names: set<HolderId>) {
    && (forall h | h in s.held :: h.holder in names)
    && forall i | 0 <= i < |s.log| :: EventNamed(s.log[i].event, names)
  }

  lemma {:induction false} ExpiriesNamed(s: Service, dropped: seq<HeldBy>, s': Service, names: set<HolderId>)
    requires Named(s, names) && (forall h | h in dropped :: h in s.held) && (forall h | h in s'.held :: h in s.held)
    requires s'.log == AppendAll(s.log, s.now, Expiries(dropped))
    ensures Named(s', names)
  {
    AppendAllContents(s.log, s.now, Expiries(dropped));
    forall i | 0 <= i < |s'.log|
      ensures EventNamed(s'.log[i].event, names)
    {
      if i < |s.log| {
        assert s'.log[i] == s.log[i];
      } else {
        assert dropped[i - |s.log|] in dropped;
      }
    }
  }

  lemma {:induction false} SweptNamed(s: Service, names: set<HolderId>)
    requires Named(s, names)
    ensures Named(Swept(s), names)
  {
    hide Named, Alive, Lapsed, Expiries, AppendAll;
    AliveMeans(s.held, s.now);
    LapsedMeans(s.held, s.now);
    ExpiriesNamed(s, Lapsed(s.held, s.now), Swept(s), names);
  }

  lemma {:induction false} GrantedNamed(c: Setup, s: Service, holder: HolderId, names: set<HolderId>)
    requires Named(s, names) && holder in names
    ensures Named(Granted(c, s, holder).0, names)
  {
  }

  lemma {:induction false} ExtendedNamed(c: Setup, s: Service, i: nat, names: set<HolderId>)
    requires Named(s, names) && i < |s.held|
    ensures Named(Extended(c, s, i), names)
  {
    forall h | h in Extended(c, s, i).held
      ensures h.holder in names
    {
      var k :| 0 <= k < |s.held| && Extended(c, s, i).held[k] == h;
      assert s.held[k] in s.held;
    }
  }

  lemma {:induction false} CallNamed(c: Setup, s: Service, call: Call, names: set<HolderId>)
    requires Named(s, names) && Permits(Permit(true, Some(names), true), call)
    ensures Named(Called(c, s, call), names)
  {
    hide Swept, Without, FirstOn, Granted, Extended, Expiries, AppendAll;
    match call
    case Tick(_) =>
    case Sweep => SweptNamed(s, names);
    case Note(event) =>
    case Grant(holder) => GrantedNamed(c, s, holder, names);
    case GiveUp(holding) =>
      WithoutMeans(s.held, holding.ticket);
    case Extend(ticket) =>
      if FirstOn(s.held, ticket).Some? {
        ExtendedNamed(c, s, FirstOn(s.held, ticket).value, names);
      }
    case Raise =>
    case Revoke =>
    case ExpireAll => ExpiriesNamed(s, s.held, ForceExpired(s), names);
  }

  // ---------- Runs

  /** Whom an operation brings into the history: whoever reads or is noted and, under the write-only
      span, whoever writes. Anyone else who acts was brought in before, or finds nothing open and
      changes nothing. */
  function Speaker(c: Setup, op: Op): set<HolderId> {
    match op
    case Read(holder) => {holder}
    case Write(holder, _, _) => if c.span == WriteOnly then {holder} else {}
    case Authorize(holder, _, _) => if c.span == WriteOnly then {holder} else {}
    case NoteFinished(holder) => {holder}
    case NoteWedged(holder) => {holder}
    case _ => {}
  }

  function Speakers(c: Setup, ops: seq<Op>): set<HolderId> {
    if ops == [] then {} else Speakers(c, ops[..|ops| - 1]) + Speaker(c, ops[|ops| - 1])
  }

  ghost predicate AllNamed(rs: RunState, names: set<HolderId>) {
    && Named(rs.world.svc, names)
    && rs.world.open.Keys <= names
    && forall a | a in rs.pool :: a.holding.holder in names
  }

  /** Who is not named has nothing open, and only reads, is noted, or takes a hold to write. */
  ghost predicate Idles(c: Setup, w: World, op: Op) {
    match op
    case Progress(holder) => holder !in w.open
    case Abandon(holder) => holder !in w.open
    case Write(holder, _, _) => c.span == Full && holder !in w.open
    case Authorize(holder, _, _) => c.span == Full && holder !in w.open
    case _ => false
  }

  lemma {:induction false} IdlersChangeNothing(c: Setup, rs: RunState, op: Op)
    requires Idles(c, rs.world, op)
    ensures Step(c, rs, op) == rs
  {
    hide Submitted, Applied, Renewed, Released;
  }

  lemma {:induction false} StepOpens(c: Setup, rs: RunState, op: Op)
    ensures Step(c, rs, op).world.open.Keys <= rs.world.open.Keys + (if op.Read? then {op.holder} else {})
  {
    hide ReadDone, Progressed, Submitted, Applied, Abandoned, HoldForWrite, Swept, ForceReleased, ForceExpired;
    hide NotSubmitted, Yes, Adds, Released, LapseEvents;
    var w := rs.world;
    match op
    case Read(holder) => ReadMeans(c, w, holder);
    case Progress(holder) => ProgressMeans(c, w, holder);
    case Write(holder, readAt, content) => WriteOpens(c, rs, holder, readAt, content);
    case Authorize(holder, readAt, content) => AuthorizeOpens(c, rs, holder, readAt, content);
    case Apply(k) =>
      if k < |rs.pool| {
        AppliedMeans(c, w, rs.pool[k]);
      }
    case Abandon(holder) => AbandonedMeans(c, w, holder);
    case _ =>
  }

  lemma {:induction false} AuthorizeOpens(
    c: Setup, rs: RunState, holder: HolderId, readAt: nat, content: Content)
    ensures AuthorizeStep(c, rs, holder, readAt, content).world.open == rs.world.open
  {
    hide HoldForWrite, Submitted, Yes, Adds, Released, Swept, LapseEvents;
    HoldForWriteMeans(c, rs.world, holder);
    match HoldForWrite(c, rs.world, holder)
    case (_, Err(_)) =>
    case (w, Ok(holding)) => SubmittedMeans(c, w, holder, holding, readAt, content);
  }

  lemma {:induction false} WriteOpens(c: Setup, rs: RunState, holder: HolderId, readAt: nat, content: Content)
    ensures WriteStep(c, rs, holder, readAt, content).world.open.Keys <= rs.world.open.Keys
  {
    hide AuthorizeStep, Applied, Released, Adds, LapseEvents;
    AuthorizeOpens(c, rs, holder, readAt, content);
    var authorized := AuthorizeStep(c, rs, holder, readAt, content);
    if |rs.pool| < |authorized.pool| {
      AppliedMeans(c, authorized.world, authorized.pool[|rs.pool|]);
    }
  }

  lemma {:induction false} StepNamed(c: Setup, rs: RunState, op: Op, names: set<HolderId>)
    requires AllNamed(rs, names) && OpenIsOwn(rs.world.open) && Speaker(c, op) <= names
    ensures AllNamed(Step(c, rs, op), names)
  {
    hide Named, Reaches, Called;
    if Idles(c, rs.world, op) {
      IdlersChangeNothing(c, rs, op);
    } else {
      var permit := Permit(true, Some(names), true);
      assert StepCovered(permit, rs, op);
      StepPool(c, rs, op, names);
      hide Step, StepCovered;
      StepOpens(c, rs, op);
      StepReaches(c, rs, op, permit);
      forall x, call | Named(x, names) && Permits(permit, call)
        ensures Named(Called(c, x, call), names)
      {
        CallNamed(c, x, call, names);
      }
      ReachesKeeps(c, rs.world.svc, Step(c, rs, op).world.svc, permit, x => Named(x, names));
    }
  }

  /** Tokens are in the names of agents already named. */
  lemma {:induction false} StepPool(c: Setup, rs: RunState, op: Op, names: set<HolderId>)
    requires OpenIsOwn(rs.world.open) && (op.Write? || op.Authorize? ==> op.holder in names)
    requires forall a | a in rs.pool :: a.holding.holder in names
    ensures forall a | a in Step(c, rs, op).pool :: a.holding.holder in names
  {
    hide AuthorizeStep, ReadDone, Progressed, Applied, Abandoned, ForceReleased, ForceExpired, Swept;
    if op.Write? {
      TokenIsOwn(c, rs, op.holder, op.readAt, op.content);
      PoolGrows(c, rs, op.holder, op.readAt, op.content);
    } else if op.Authorize? {
      TokenIsOwn(c, rs, op.holder, op.readAt, op.content);
      PoolGrows(c, rs, op.holder, op.readAt, op.content);
    }
  }

  /** Authorizing adds at most one token, at the end. */
  lemma {:induction false} PoolGrows(c: Setup, rs: RunState, holder: HolderId, readAt: nat, content: Content)
    ensures var rs' := AuthorizeStep(c, rs, holder, readAt, content);
            rs'.pool == rs.pool || exists a :: rs'.pool == rs.pool + [a]
  {
    hide HoldForWrite, Submitted;
  }

  /** The history is about speakers only. */
  lemma {:induction false} RunNamed(c: Setup, file: Option<Content>, leftover: Option<Content>, ops: seq<Op>)
    ensures AllNamed(Run(c, Start(file, leftover), ops), Speakers(c, ops))
  {
    if ops == [] {
    } else {
      var shorter, op := ops[..|ops| - 1], ops[|ops| - 1];
      assert Speakers(c, ops) == Speakers(c, shorter) + Speaker(c, op);
      var rs := Run(c, Start(file, leftover), shorter);
      RunNamed(c, file, leftover, shorter);
      RunOwn(c, file, leftover, shorter);
      MoreNamed(rs, Speakers(c, shorter), Speakers(c, ops));
      hide AllNamed, Step, Speaker, Speakers;
      StepNamed(c, rs, op, Speakers(c, ops));
    }
  }

  lemma {:induction false} MoreNamed(rs: RunState, names: set<HolderId>, more: set<HolderId>)
    requires AllNamed(rs, names) && names <= more
    ensures AllNamed(rs, more)
  {
  }

  // ---------- Everyone who speaks is heard

  ghost predicate About(log: Log, h: HolderId) {
    exists i :: 0 <= i < |log| && HolderOf(log[i].event) == Some(h)
  }

  lemma {:induction false} AboutGrows(log: Log, log': Log, h: HolderId)
    requires About(log, h) && log <= log'
    ensures About(log', h)
  {
    var i :| 0 <= i < |log| && HolderOf(log[i].event) == Some(h);
    assert log'[i] == log[i];
  }

  lemma {:induction false} AddedAbout(log: Log, log': Log, now: nat, events: seq<Event>, i: nat, h: HolderId)
    requires Adds(log, log', now, events) && i < |events| && HolderOf(events[i]) == Some(h)
    ensures About(log', h)
  {
    assert log'[|log| + i].event == events[i];
  }

  lemma {:induction false} TakeIsHeard(c: Setup, s: Service, holder: HolderId)
    ensures About(Acquired(c, s, holder).0.log, holder)
  {
    hide Acquired, Adds, LapseEvents;
    AcquiredMeans(c, s, holder);
    var (s', r) := Acquired(c, s, holder);
    var asked := LapseEvents(s) + [TakeRequested(holder)];
    if r.Ok? {
      var t := r.value.ticket;
      var events := LapseEvents(s) + [TakeRequested(holder), TicketIssued(t), TakeGranted(holder, t)];
      assert events[|LapseEvents(s)|] == TakeRequested(holder);
      AddedAbout(s.log, s'.log, s.now, events, |LapseEvents(s)|, holder);
    } else {
      assert asked[|LapseEvents(s)|] == TakeRequested(holder);
      AddedAbout(s.log, s'.log, s.now, asked, |LapseEvents(s)|, holder);
    }
  }

  lemma {:induction false} ReadIsHeard(c: Setup, w: World, holder: HolderId)
    ensures About(ReadDone(c, w, holder).0.svc.log, holder)
  {
    hide ReadDone, Adds, LapseEvents;
    ReadMeans(c, w, holder);
    var (w', r) := ReadDone(c, w, holder);
    var (s, s') := (w.svc, w'.svc);
    var read := Event.Read(holder, s.version);
    if r.Err? {
      AddedAbout(s.log, s'.log, s.now, LapseEvents(s) + [TakeRequested(holder)], |LapseEvents(s)|, holder);
    } else if c.span == WriteOnly {
      AddedAbout(s.log, s'.log, s.now, LapseEvents(s) + [read], |LapseEvents(s)|, holder);
    } else {
      var t := s'.lastIssued;
      var events := LapseEvents(s) + [TakeRequested(holder), TicketIssued(t), TakeGranted(holder, t)]
                    + GoneAtOnce(c, holder, t) + [read];
      assert events[|events| - 1] == read;
      AddedAbout(s.log, s'.log, s.now, events, |events| - 1, holder);
    }
  }

  lemma {:induction false} WriterIsHeard(c: Setup, rs: RunState, holder: HolderId, readAt: nat, content: Content)
    requires c.span == WriteOnly
    ensures About(AuthorizeStep(c, rs, holder, readAt, content).world.svc.log, holder)
  {
    hide HoldForWrite, Submitted, Adds, Yes, LapseEvents, Swept, Released, About, Acquired;
    HoldForWriteMeans(c, rs.world, holder);
    TakeIsHeard(c, rs.world.svc, holder);
    match HoldForWrite(c, rs.world, holder)
    case (_, Err(_)) =>
    case (w, Ok(holding)) =>
      SubmittedGrows(c, w, holder, holding, readAt, content);
      AboutGrows(w.svc.log, Submitted(c, w, holder, holding, readAt, content).0.svc.log, holder);
  }

  lemma {:induction false} SubmittedGrows(
    c: Setup, w: World, holder: HolderId, holding: Holding, readAt: nat, content: Content)
    ensures w.svc.log <= Submitted(c, w, holder, holding, readAt, content).0.svc.log
  {
    hide Submitted, Yes, LapseEvents, Swept, Released;
    SubmittedMeans(c, w, holder, holding, readAt, content);
  }

  lemma {:induction false} SpeakerIsHeard(c: Setup, rs: RunState, op: Op, h: HolderId)
    requires h in Speaker(c, op)
    ensures About(Step(c, rs, op).world.svc.log, h)
  {
    hide ReadDone, AuthorizeStep, Applied;
    match op
    case Read(holder) => ReadIsHeard(c, rs.world, holder);
    case Write(holder, readAt, content) =>
      hide About;
      WriterIsHeard(c, rs, holder, readAt, content);
      var authorized := AuthorizeStep(c, rs, holder, readAt, content);
      ApplyReaches(c, authorized, |rs.pool|);
      ReachesGrows(c, authorized.world.svc, ApplyStep(c, authorized, |rs.pool|).world.svc);
      AboutGrows(authorized.world.svc.log, ApplyStep(c, authorized, |rs.pool|).world.svc.log, h);
    case Authorize(holder, readAt, content) => WriterIsHeard(c, rs, holder, readAt, content);
    case NoteFinished(_) => NoteIsHeard(rs.world.svc, AgentFinished(h), h);
    case NoteWedged(_) => NoteIsHeard(rs.world.svc, AgentWedged(h), h);
    case _ =>
  }

  lemma {:induction false} NoteIsHeard(s: Service, note: Event, h: HolderId)
    requires HolderOf(note) == Some(h)
    ensures About(Record(s, note).log, h)
  {
    assert Record(s, note).log[|s.log|].event == note;
  }

  lemma {:induction false} SpeakersAreHeard(c: Setup, rs: RunState, ops: seq<Op>, h: HolderId)
    requires h in Speakers(c, ops)
    ensures About(Run(c, rs, ops).world.svc.log, h)
  {
    hide Step, Speaker, About;
    var n := |ops| - 1;
    var before := Run(c, rs, ops[..n]);
    if h in Speaker(c, ops[n]) {
      SpeakerIsHeard(c, before, ops[n], h);
    } else {
      SpeakersAreHeard(c, rs, ops[..n], h);
      StepGrows(c, before, ops[n]);
      AboutGrows(before.world.svc.log, Step(c, before, ops[n]).world.svc.log, h);
    }
  }

  /** Under every fault, a history is about exactly those who read or were noted and, under the
      write-only span, those who wrote, whether their take or their write was refused or not. */
  lemma {:induction false} SpeakersExactly(
    c: Setup, file: Option<Content>, leftover: Option<Content>, ops: seq<Op>, h: HolderId)
    ensures About(Run(c, Start(file, leftover), ops).world.svc.log, h) <==> h in Speakers(c, ops)
  {
    hide Run, Speakers;
    var log := Run(c, Start(file, leftover), ops).world.svc.log;
    if h in Speakers(c, ops) {
      SpeakersAreHeard(c, Start(file, leftover), ops, h);
    }
    if About(log, h) {
      RunNamed(c, file, leftover, ops);
      var i :| 0 <= i < |log| && HolderOf(log[i].event) == Some(h);
      assert EventNamed(log[i].event, Speakers(c, ops));
    }
  }

  // ---------- Ends

  /** Some operation notes the agent's end. */
  predicate Noted(ops: seq<Op>, h: HolderId) {
    exists i :: 0 <= i < |ops| && (ops[i] == NoteFinished(h) || ops[i] == NoteWedged(h))
  }

  lemma {:induction false} NotedNext(ops: seq<Op>, h: HolderId)
    requires ops != []
    ensures var (rest, last) := (ops[..|ops| - 1], ops[|ops| - 1]);
            Noted(ops, h) <==> Noted(rest, h) || last == NoteFinished(h) || last == NoteWedged(h)
  {
    var (rest, last) := (ops[..|ops| - 1], ops[|ops| - 1]);
    assert ops[|ops| - 1] == last && forall i | 0 <= i < |rest| :: ops[i] == rest[i];
  }

  /** Only a note adds an end. */
  lemma {:induction false} StepEnds(c: Setup, rs: RunState, op: Op, h: HolderId)
    ensures Ended(Step(c, rs, op).world.svc.log, h) <==>
            Ended(rs.world.svc.log, h) || op == NoteFinished(h) || op == NoteWedged(h)
  {
    if op.NoteFinished? || op.NoteWedged? {
      NoteEnds(rs.world.svc, if op.NoteFinished? then AgentFinished(op.holder) else AgentWedged(op.holder), h);
    } else {
      hide Step, Reaches, Called;
      var s := rs.world.svc;
      var permit := Permit(true, None, false);
      StepReaches(c, rs, op, permit);
      forall x, call | SameEnds(s, x, h) && Permits(permit, call)
        ensures SameEnds(s, Called(c, x, call), h)
      {
        CallEnds(c, x, call, h);
      }
      ReachesKeeps(c, s, Step(c, rs, op).world.svc, permit, x => SameEnds(s, x, h));
    }
  }

  ghost predicate SameEnds(s: Service, s': Service, h: HolderId) {
    Ended(s'.log, h) <==> Ended(s.log, h)
  }

  lemma {:induction false} NoteEnds(s: Service, note: Event, h: HolderId)
    ensures Ended(Record(s, note).log, h) <==> Ended(s.log, h) || EndsAgent(note, h)
  {
    var log' := Record(s, note).log;
    assert log'[|s.log|].event == note && forall j | 0 <= j < |s.log| :: log'[j] == s.log[j];
  }

  lemma {:induction false} NoNewEnd(s: Service, s': Service, h: HolderId)
    requires s.log <= s'.log && forall j | |s.log| <= j < |s'.log| :: !EndNote(s'.log[j].event)
    ensures SameEnds(s, s', h)
  {
    assert forall j | 0 <= j < |s.log| :: s'.log[j] == s.log[j];
  }

  lemma {:induction false} CallEnds(c: Setup, s: Service, call: Call, h: HolderId)
    requires Permits(Permit(true, None, false), call)
    ensures SameEnds(s, Called(c, s, call), h)
  {
    AppendAllContents(s.log, s.now, Expiries(Lapsed(s.held, s.now)));
    AppendAllContents(s.log, s.now, Expiries(s.held));
    hide Alive, Lapsed, Without, FirstOn, AppendAll, SameEnds;
    NoNewEnd(s, Called(c, s, call), h);
  }

  lemma {:induction false} EndedIsNoted(
    c: Setup, file: Option<Content>, leftover: Option<Content>, ops: seq<Op>, h: HolderId)
    ensures Ended(Run(c, Start(file, leftover), ops).world.svc.log, h) <==> Noted(ops, h)
  {
    if ops == [] {
    } else {
      hide Step, Ended, Noted;
      NotedNext(ops, h);
      EndedIsNoted(c, file, leftover, ops[..|ops| - 1], h);
      StepEnds(c, Run(c, Start(file, leftover), ops[..|ops| - 1]), ops[|ops| - 1], h);
    }
  }

  /** Everyone who spoke was noted as finished or wedged. */
  predicate EveryoneNoted(c: Setup, ops: seq<Op>) {
    forall h | h in Speakers(c, ops) :: Noted(ops, h)
  }

  /** P7 passes exactly when everyone who spoke was noted. */
  lemma {:induction false} P7Exactly(c: Setup, file: Option<Content>, leftover: Option<Content>, ops: seq<Op>)
    ensures Unfinished(Run(c, Start(file, leftover), ops).world.svc.log) == map[] <==> EveryoneNoted(c, ops)
  {
    hide Run, Speakers, Noted, Ended, Unfinished;
    var log := Run(c, Start(file, leftover), ops).world.svc.log;
    P7Means(log);
    forall h
      ensures About(log, h) <==> h in Speakers(c, ops)
      ensures Ended(log, h) <==> Noted(ops, h)
    {
      SpeakersExactly(c, file, leftover, ops, h);
      EndedIsNoted(c, file, leftover, ops, h);
    }
    if EveryoneEnded(log) {
      forall h | h in Speakers(c, ops)
        ensures Noted(ops, h)
      {
        assert About(log, h);
        var i :| 0 <= i < |log| && HolderOf(log[i].event) == Some(h);
      }
    }
    if EveryoneNoted(c, ops) {
      forall i, h | 0 <= i < |log| && HolderOf(log[i].event) == Some(h)
        ensures Ended(log, h)
      {
        assert About(log, h);
      }
    }
  }
}
