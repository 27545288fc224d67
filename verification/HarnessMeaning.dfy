/** What the harness's operations mean, said about live holds, open entries, the clock, the slot and
    the history: every answer, everything that changes, and every entry that is logged. */
module HarnessMeaning {
  import opened Types
  import opened Histories
  import opened Stores
  import opened Locks
  import opened HoldLists
  import opened LockMeaning
  import opened Harnesses
  import opened Runs
  import opened Scenarios

  // ---------- Entries

  lemma {:induction false} AddsOne(log: Log, now: nat, event: Event)
    ensures Adds(log, Append(log, now, event), now, [event])
  {
  }

  lemma {:induction false} AddsTwice(
    log: Log, log': Log, log'': Log, now: nat, first: seq<Event>, more: seq<Event>)
    requires Adds(log, log', now, first) && Adds(log', log'', now, more)
    ensures Adds(log, log'', now, first + more)
  {
    assert forall i | 0 <= i < |log'| :: log''[i] == log'[i];
    forall i | 0 <= i < |first + more|
      ensures log''[|log| + i] == Entry(|log| + i, now, (first + more)[i])
    {
      assert i >= |first| ==> log''[|log'| + (i - |first|)] == Entry(|log'| + (i - |first|), now, more[i - |first|]);
    }
  }

  /** The entry of a release, unless the fault drops it. */
  function GaveBack(c: Setup, holding: Holding): seq<Event> {
    if holding.holder in c.faults.dropRelease then [] else [GiveBack(holding.holder, holding.ticket)]
  }

  /** Once swept, there is nothing to sweep in the same tick. */
  lemma {:induction false} SweptRests(s: Service, s': Service)
    requires s'.held == Swept(s).held && s'.now == s.now
    ensures Swept(s') == s'
  {
    AliveMeans(s.held, s.now);
    hide Swept;
    NothingToSweep(s') by {
      SweptMeans(s);
    }
  }

  /** So a release in that tick adds its own entry only, and leaves what giving back at once would. */
  lemma {:induction false} ReleaseRests(c: Setup, s: Service, s': Service, holding: Holding)
    requires s'.held == Swept(s).held && s'.now == s.now
    ensures var r := Released(c, s', holding);
            && r == s'.(held := Released(c, s, holding).held, log := r.log)
            && Adds(s'.log, r.log, s.now, GaveBack(c, holding))
  {
    hide Swept, Without;
    SweptRests(s, s');
  }

  /** Logging one event on a swept service, and then perhaps giving back. */
  lemma {:induction false} SweptThen(c: Setup, s: Service, version: nat, event: Event, holding: Holding)
    ensures var settled := Record(Swept(s).(version := version), event);
            var released := Released(c, settled, holding);
            && Adds(s.log, settled.log, s.now, LapseEvents(s) + [event])
            && released == settled.(held := Released(c, s, holding).held, log := released.log)
            && Adds(s.log, released.log, s.now, LapseEvents(s) + [event] + GaveBack(c, holding))
  {
    hide Swept, Released, Adds, LapseEvents;
    var swept := Swept(s).(version := version);
    assert swept.now == s.now && Adds(s.log, swept.log, s.now, LapseEvents(s)) by {
      SweptMeans(s);
    }
    AddsOne(swept.log, s.now, event);
    AddsTwice(s.log, swept.log, Record(swept, event).log, s.now, LapseEvents(s), [event]);
    ReleaseRests(c, s, Record(swept, event), holding);
    AddsTwice(s.log, Record(swept, event).log, Released(c, Record(swept, event), holding).log, s.now,
      LapseEvents(s) + [event], GaveBack(c, holding));
  }

  // ---------- Reading

  /** What a hold of no length has logged by the time its read is. */
  function GoneAtOnce(c: Setup, holder: HolderId, ticket: nat): seq<Event> {
    if c.lease == 0 then [LeaseExpired(holder, ticket)] else []
  }

  /** A read under the full span is refused exactly when something is live and double grants are off;
      only the request is logged then. Otherwise it returns the file and the version, logs that as its
      last entry and, under the full span, has opened a new hold. It writes nothing. */
  lemma {:induction false} ReadMeans(c: Setup, w: World, holder: HolderId)
    ensures var (w', r) := ReadDone(c, w, holder);
            var (s, s') := (w.svc, w'.svc);
            && w'.store == w.store && s'.version == s.version && s'.now == s.now
            && (r.Err? <==> c.span == Full && !c.faults.grantTwice && exists h :: Live(s, h))
            && (r.Err? ==>
                  && r.error == Lock(Contended)
                  && w'.open == w.open
                  && s' == s.(held := Swept(s).held, log := s'.log)
                  && Adds(s.log, s'.log, s.now, LapseEvents(s) + [TakeRequested(holder)]))
            && (r.Ok? ==> r.value == Snapshot(ReadBack(w.store.target), s.version))
            && (r.Ok? && c.span == WriteOnly ==>
                  && w'.open == w.open
                  && s' == s.(held := Swept(s).held, log := s'.log)
                  && Adds(s.log, s'.log, s.now, LapseEvents(s) + [Event.Read(holder, s.version)]))
            && (r.Ok? && c.span == Full ==>
                  var t := s'.lastIssued;
                  && w'.open == w.open[holder := Open(Holding(holder, t), s.now)]
                  && s'.held == Swept(s).held + (if c.lease > 0 then [HeldBy(holder, t, s.now + c.lease)] else [])
                  && Adds(s.log, s'.log, s.now,
                          LapseEvents(s) + [TakeRequested(holder), TicketIssued(t), TakeGranted(holder, t)]
                          + GoneAtOnce(c, holder, t) + [Event.Read(holder, s.version)]))
  {
    if c.span == WriteOnly {
      SweptThen(c, w.svc, w.svc.version, Event.Read(holder, w.svc.version), Holding(holder, 0));
      hide Swept, Released;
      SweptMeans(w.svc);
    } else {
      AcquiredMeans(c, w.svc, holder);
      if Acquired(c, w.svc, holder).1.Ok? {
        TakenThenRead(c, w.svc, holder);
      }
      hide Swept, Acquired;
    }
  }

  /** After a take, the read's own sweep finds at most the hold just taken. */
  lemma {:induction false} TakenThenRead(c: Setup, s: Service, holder: HolderId)
    requires Acquired(c, s, holder).1.Ok?
    ensures var (taken, r) := Acquired(c, s, holder);
            var t := r.value.ticket;
            var s' := Record(Swept(taken), Event.Read(holder, s.version));
            && Swept(taken).version == s.version && s'.now == s.now && s'.lastIssued == t
            && s'.held == Swept(s).held + (if c.lease > 0 then [HeldBy(holder, t, s.now + c.lease)] else [])
            && Adds(s.log, s'.log, s.now,
                    LapseEvents(s) + [TakeRequested(holder), TicketIssued(t), TakeGranted(holder, t)]
                    + GoneAtOnce(c, holder, t) + [Event.Read(holder, s.version)])
  {
    hide Swept, Acquired, Adds, LapseEvents;
    var (taken, r) := Acquired(c, s, holder);
    AcquiredMeans(c, s, holder);
    SweptMeans(taken);
    SweptAgain(c, s, taken, HeldBy(holder, r.value.ticket, s.now + c.lease));
    var event := Event.Read(holder, s.version);
    AddsTwice(s.log, taken.log, Swept(taken).log, s.now,
      LapseEvents(s) + [TakeRequested(holder), TicketIssued(r.value.ticket), TakeGranted(holder, r.value.ticket)],
      LapseEvents(taken));
    AddsOne(Swept(taken).log, s.now, event);
    AddsTwice(s.log, Swept(taken).log, Record(Swept(taken), event).log, s.now,
      LapseEvents(s) + [TakeRequested(holder), TicketIssued(r.value.ticket), TakeGranted(holder, r.value.ticket)]
      + LapseEvents(taken), [event]);
  }

  lemma {:induction false} SweptAgain(c: Setup, s: Service, s': Service, top: HeldBy)
    requires s'.held == Swept(s).held + [top] && s'.now == s.now && top.deadline == s.now + c.lease
    ensures Swept(s').held == Swept(s).held + (if c.lease > 0 then [top] else [])
    ensures LapseEvents(s') == GoneAtOnce(c, top.holder, top.ticket)
  {
    var live := Swept(s).held;
    AliveMeans(s.held, s.now);
    AllYoung(live, s.now);
    assert s'.held[..|live|] == live && s'.held[|live|] == top;
    hide Alive;
  }

  // ---------- Progress

  /** Without an open hold progress is fine and changes nothing. At or past the ceiling it is refused,
      and that is logged. Otherwise it renews: refused exactly when nothing live is on the open ticket
      and renewals are not swallowed; and if they are not, the first live hold on it, alone, has one
      lease from now. */
  lemma {:induction false} ProgressMeans(c: Setup, w: World, holder: HolderId)
    ensures var (w', r) := Progressed(c, w, holder);
            var (s, s') := (w.svc, w'.svc);
            var swallowed := holder in w.open && w.open[holder].holding.holder in c.faults.swallowKeepalive;
            && w'.store == w.store && w'.open == w.open
            && (holder !in w.open ==> r == Ok(()) && w' == w)
            && (holder in w.open && s.now >= w.open[holder].takenAt + c.holdCeiling ==>
                  && r == Err(CeilingExceeded)
                  && s' == s.(log := s'.log)
                  && Adds(s.log, s'.log, s.now, [CeilingReached(holder)]))
            && (holder in w.open && s.now < w.open[holder].takenAt + c.holdCeiling ==>
                  var (t, live) := (w.open[holder].holding.ticket, Swept(s).held);
                  && r == (if swallowed || LiveOn(s, t) then Ok(()) else Err(Lock(Expired)))
                  && Adds(s.log, s'.log, s.now, LapseEvents(s))
                  && s' == s.(held := s'.held, log := s'.log)
                  && (r.Err? || swallowed ==> s'.held == live)
                  && (r.Ok? && !swallowed ==>
                        exists k :: 0 <= k < |live| && live[k].ticket == t
                                    && (forall j | 0 <= j < k :: live[j].ticket != t)
                                    && s'.held == live[k := live[k].(deadline := s.now + c.lease)]))
  {
    hide Swept, Renewed, LiveOn;
    AddsOne(w.svc.log, w.svc.now, CeilingReached(holder));
    SweptMeans(w.svc);
    if holder in w.open {
      RenewedMeans(c, w.svc, w.open[holder].holding);
    }
  }

  // ---------- Writing

  /** The hold for a write. Under the full span: expired without an open entry, refused at or past the
      ceiling, the open one before it; and nothing changes. Under the write-only span: a take. */
  lemma {:induction false} HoldForWriteMeans(c: Setup, w: World, holder: HolderId)
    ensures var (w', r) := HoldForWrite(c, w, holder);
            && w'.store == w.store && w'.open == w.open
            && (c.span == Full ==>
                  && w' == w
                  && (r == Err(Lock(Expired)) <==> holder !in w.open)
                  && (r == Err(CeilingExceeded) <==>
                        holder in w.open && w.svc.now >= w.open[holder].takenAt + c.holdCeiling)
                  && (r.Ok? ==> r.value == w.open[holder].holding)
                  && (r.Err? ==> r.error == CeilingExceeded || r.error == Lock(Expired)))
            && (c.span == WriteOnly ==>
                  && w'.svc == Acquired(c, w.svc, holder).0
                  && (r.Ok? <==> c.faults.grantTwice || forall h :: !Live(w.svc, h))
                  && (r.Ok? ==> Acquired(c, w.svc, holder).1 == Ok(r.value))
                  && (r.Err? ==> r.error == Lock(Contended)))
  {
    AcquiredMeans(c, w.svc, holder);
    hide Acquired;
  }

  /** The service will say yes. */
  ghost predicate Yes(s: Service, holding: Holding, readAt: nat) {
    TopLive(s, holding.ticket) && readAt == s.version
  }

  /** Why the service says no: the ticket first, then the version. */
  ghost predicate WhyNot(s: Service, holding: Holding, readAt: nat, reason: Refusal) {
    if TopLive(s, holding.ticket) then reason == StaleVersion(readAt, s.version)
    else reason.StaleTicket? && reason.held == holding.ticket && IsTop(s, reason.inForce)
  }

  /** After a refused or failed submission: the slot, the holds and the entries. */
  ghost predicate NotSubmitted(
    c: Setup, w: World, w': World, r: WriteError, holder: HolderId, holding: Holding, readAt: nat, content: Content)
  {
    var (s, s') := (w.svc, w'.svc);
    var attempt := WriteAttempted(holder, holding.ticket, readAt);
    && w'.open == w.open && w'.store.target == w.store.target
    && s' == s.(held := s'.held, log := s'.log)
    && if c.failAt == Some(AfterTempWritten) then
         && r == Io
         && w'.store.tmp == Some(content)
         && s'.held == s.held
         && Adds(s.log, s'.log, s.now, [attempt])
       else
         && r.Refused? && WhyNot(s, holding, readAt, r.reason)
         && w'.store.tmp == None
         && s'.held == (if c.span == Full then Swept(s).held else Released(c, s, holding).held)
         && Adds(s.log, s'.log, s.now,
                 [attempt] + (LapseEvents(s) + [WriteRefused(holder, r.reason, content)]
                              + if c.span == Full then [] else GaveBack(c, holding)))
  }

  /** A submission is authorized exactly if staging works and the service says yes; its content is then
      staged, whatever was staged before, and the version is one higher. A refusal empties the slot, and
      under the write-only span gives the hold back; a failure to stage leaves both. */
  lemma {:induction false} SubmittedMeans(
    c: Setup, w: World, holder: HolderId, holding: Holding, readAt: nat, content: Content)
    ensures var (w', r) := Submitted(c, w, holder, holding, readAt, content);
            var (s, s') := (w.svc, w'.svc);
            && (r.Ok? <==> c.failAt != Some(AfterTempWritten) && Yes(s, holding, readAt))
            && (r.Ok? ==>
                  && r.value == Authorized(holding, s.version + 1, content)
                  && w'.open == w.open && w'.store == Store(w.store.target, Some(content))
                  && s' == s.(held := Swept(s).held, version := s.version + 1, log := s'.log)
                  && Adds(s.log, s'.log, s.now, [WriteAttempted(holder, holding.ticket, readAt)] + LapseEvents(s)))
            && (r.Err? ==> NotSubmitted(c, w, w', r.error, holder, holding, readAt, content))
  {
    hide Swept, Committed, Released, Adds, LapseEvents, TopLive, IsTop;
    var event := WriteAttempted(holder, holding.ticket, readAt);
    var attempted := Record(w.svc, event);
    AddsOne(w.svc.log, w.svc.now, event);
    AttemptChangesNothing(c, w.svc, event, holding);
    CommittedMeans(attempted, holding, readAt);
    SweptMeans(attempted);
    AddsTwice(w.svc.log, attempted.log, Swept(attempted).log, w.svc.now, [event], LapseEvents(w.svc));
    match Committed(attempted, holding, readAt)
    case (_, Ok(_)) =>
    case (svc, Err(reason)) =>
      var refused := WriteRefused(holder, reason, content);
      SweptThen(c, attempted, w.svc.version, refused, holding);
      AddsTwice(w.svc.log, attempted.log, Record(svc, refused).log, w.svc.now, [event], LapseEvents(w.svc) + [refused]);
      AddsTwice(w.svc.log, attempted.log, Released(c, Record(svc, refused), holding).log, w.svc.now,
        [event], LapseEvents(w.svc) + [refused] + GaveBack(c, holding));
      assert LapseEvents(w.svc) + [refused] + [] == LapseEvents(w.svc) + [refused];
  }

  /** Logging an event leaves what is live, and what would lapse, as it was. */
  lemma {:induction false} AttemptChangesNothing(c: Setup, s: Service, event: Event, holding: Holding)
    ensures var s' := Record(s, event);
            && LapseEvents(s') == LapseEvents(s)
            && Swept(s').held == Swept(s).held
            && Released(c, s', holding).held == Released(c, s, holding).held
            && (forall h :: Live(s', h) <==> Live(s, h))
            && (forall t :: TopLive(s', t) <==> TopLive(s, t))
            && (forall top :: IsTop(s', top) <==> IsTop(s, top))
  {
    var s' := Record(s, event);
    assert forall t :: LiveOn(s', t) <==> LiveOn(s, t) by {
      forall t
        ensures LiveOn(s', t) <==> LiveOn(s, t)
      {
        if LiveOn(s, t) {
          var h :| Live(s, h) && h.ticket == t;
          assert Live(s', h);
        }
        if LiveOn(s', t) {
          var h :| Live(s', h) && h.ticket == t;
          assert Live(s, h);
        }
      }
    }
    hide Alive, Lapsed, Without, Expiries, AppendAll, LiveOn;
  }

  /** Applying a waiting write. Overtaken, it empties the slot, whoever staged into it, and gives its
      hold back. Otherwise it publishes what is staged, if renames work and something is; and if not,
      only a sweep has happened. */
  lemma {:induction false} AppliedMeans(c: Setup, w: World, a: Authorized)
    ensures var (w', r) := Applied(c, w, a);
            var (s, s') := (w.svc, w'.svc);
            var overtaken := a.newVersion != s.version;
            var published := !overtaken && c.failAt != Some(DuringRename) && w.store.tmp.Some?;
            var entry := if overtaken
                         then WriteRefused(a.holding.holder, StaleVersion(a.newVersion, s.version), a.content)
                         else WriteAccepted(a.holding.holder, a.holding.ticket, a.newVersion, a.content);
            && r == (if overtaken then Err(Superseded(a.newVersion, s.version))
                     else if published then Ok(a.newVersion) else Err(Io))
            && w'.store == (if overtaken then Store(w.store.target, None)
                            else if published then Store(w.store.tmp, None) else w.store)
            && w'.open == (if overtaken || published then w.open - {a.holding.holder} else w.open)
            && s' == s.(held := s'.held, log := s'.log)
            && (overtaken || published ==>
                  && s'.held == Released(c, s, a.holding).held
                  && Adds(s.log, s'.log, s.now, LapseEvents(s) + [entry] + GaveBack(c, a.holding)))
            && (!overtaken && !published ==> s' == Swept(s))
  {
    hide Swept, Released, Adds, LapseEvents;
    SweptMeans(w.svc);
    SweptThen(c, w.svc, w.svc.version,
      WriteRefused(a.holding.holder, StaleVersion(a.newVersion, w.svc.version), a.content), a.holding);
    SweptThen(c, w.svc, w.svc.version,
      WriteAccepted(a.holding.holder, a.holding.ticket, a.newVersion, a.content), a.holding);
  }

  /** A write in one step, with the hold it got. It lands exactly if staging works, the service says yes
      and renames work; a failed rename leaves its content staged, its hold live and the version one
      higher. */
  lemma {:induction false} WrittenMeans(c: Setup, w: World, holder: HolderId, readAt: nat, content: Content)
    ensures var (w1, taken) := HoldForWrite(c, w, holder);
            var (w', r) := Written(c, w, holder, readAt, content);
            var (s, s') := (w1.svc, w'.svc);
            && (taken.Err? ==> w' == w1 && r == Err(taken.error))
            && (taken.Ok? ==>
                  var holding := taken.value;
                  var attempt := WriteAttempted(holder, holding.ticket, readAt);
                  var accepted := WriteAccepted(holding.holder, holding.ticket, s.version + 1, content);
                  if c.failAt == Some(AfterTempWritten) || !Yes(s, holding, readAt) then
                    r.Err? && NotSubmitted(c, w1, w', r.error, holder, holding, readAt, content)
                  else if c.failAt == Some(DuringRename) then
                    && r == Err(Io)
                    && w'.open == w1.open && w'.store == Store(w1.store.target, Some(content))
                    && s' == s.(held := Swept(s).held, version := s.version + 1, log := s'.log)
                    && Adds(s.log, s'.log, s.now, [attempt] + LapseEvents(s))
                  else
                    && r == Ok(s.version + 1)
                    && w'.open == w1.open - {holding.holder} && w'.store == Store(Some(content), None)
                    && s' == s.(held := Released(c, s, holding).held, version := s.version + 1, log := s'.log)
                    && Adds(s.log, s'.log, s.now, [attempt] + LapseEvents(s) + [accepted] + GaveBack(c, holding)))
  {
    hide HoldForWrite, Submitted, Applied, NotSubmitted, Yes, Adds, Swept, Released, LapseEvents;
    var (w1, taken) := HoldForWrite(c, w, holder);
    if taken.Ok? {
      SubmittedMeans(c, w1, holder, taken.value, readAt, content);
      var (w2, a) := Submitted(c, w1, holder, taken.value, readAt, content);
      if a.Ok? {
        AppliedMeans(c, w2, a.value);
        RightAfter(c, w1.svc, w2.svc, taken.value);
        var accepted := WriteAccepted(a.value.holding.holder, a.value.holding.ticket, a.value.newVersion, content);
        var attempt := WriteAttempted(holder, taken.value.ticket, readAt);
        assert [] + [accepted] + GaveBack(c, taken.value) == [accepted] + GaveBack(c, taken.value);
        if c.failAt != Some(DuringRename) {
          AddsTwice(w1.svc.log, w2.svc.log, Applied(c, w2, a.value).0.svc.log, w1.svc.now,
            [attempt] + LapseEvents(w1.svc), [accepted] + GaveBack(c, taken.value));
          assert [attempt] + LapseEvents(w1.svc) + ([accepted] + GaveBack(c, taken.value))
              == [attempt] + LapseEvents(w1.svc) + [accepted] + GaveBack(c, taken.value);
        }
      }
    }
  }

  /** In the tick of a sweep nothing more lapses. */
  lemma {:induction false} RightAfter(c: Setup, s: Service, s': Service, holding: Holding)
    requires s'.held == Swept(s).held && s'.now == s.now
    ensures Swept(s') == s' && LapseEvents(s') == []
    ensures Released(c, s', holding).held == Released(c, s, holding).held
  {
    AliveMeans(s.held, s.now);
    AllYoung(s'.held, s.now);
    SweptRests(s, s');
    ReleaseRests(c, s, s', holding);
    hide Swept, Released;
  }

  // ---------- Abandoning

  /** Abandoning closes exactly the agent's own entry and gives its hold back; without an entry it
      changes nothing. */
  lemma {:induction false} AbandonedMeans(c: Setup, w: World, holder: HolderId)
    ensures var w' := Abandoned(c, w, holder);
            && w'.store == w.store
            && holder !in w'.open
            && (forall k | k != holder :: (k in w'.open <==> k in w.open) && (k in w.open ==> w'.open[k] == w.open[k]))
            && w'.svc == (if holder in w.open then Released(c, w.svc, w.open[holder].holding) else w.svc)
            && (holder in w.open ==>
                  var holding := w.open[holder].holding;
                  && Adds(w.svc.log, w'.svc.log, w.svc.now, LapseEvents(w.svc) + GaveBack(c, holding))
                  && forall h :: h in w'.svc.held <==>
                       Live(w.svc, h) && (holding.holder in c.faults.dropRelease || h.ticket != holding.ticket))
  {
    if holder in w.open {
      ReleasedMeans(c, w.svc, w.open[holder].holding);
    }
    hide Released, Adds, LapseEvents;
  }

  // ---------- Full span

  /** What a full-span write is told: about its entry, then the ceiling, then staging, then its ticket,
      then its version, then the rename. */
  ghost predicate FullSpanAnswer(c: Setup, w: World, holder: HolderId, readAt: nat, r: Result<nat, WriteError>) {
    if holder !in w.open then r == Err(Lock(Expired))
    else if w.svc.now >= w.open[holder].takenAt + c.holdCeiling then r == Err(CeilingExceeded)
    else if c.failAt == Some(AfterTempWritten) then r == Err(Io)
    else if !Yes(w.svc, w.open[holder].holding, readAt) then
      r.Err? && r.error.Refused? && WhyNot(w.svc, w.open[holder].holding, readAt, r.error.reason)
    else if c.failAt == Some(DuringRename) then r == Err(Io)
    else r == Ok(w.svc.version + 1)
  }

  /** Under the full span, in any state and under every fault, a write is told exactly this. Without an
      entry, or at or past the ceiling, nothing at all changes. */
  lemma {:induction false} FullSpanAnswers(c: Setup, w: World, holder: HolderId, readAt: nat, content: Content)
    requires c.span == Full
    ensures var (w', r) := Written(c, w, holder, readAt, content);
            && FullSpanAnswer(c, w, holder, readAt, r)
            && (holder !in w.open || w.svc.now >= w.open[holder].takenAt + c.holdCeiling ==> w' == w)
  {
    hide Written, HoldForWrite, Yes, WhyNot, Adds, Swept, Released, LapseEvents;
    HoldForWriteMeans(c, w, holder);
    WrittenMeans(c, w, holder, readAt, content);
  }

  /** Abandoning ends the turn: a full-span write by the same agent right after it is told that its
      lock has expired, and changes nothing; and progress is fine. */
  lemma {:induction false} AbandonedThenWritten(
    c: Setup, file: Option<Content>, leftover: Option<Content>, ops: seq<Op>,
    holder: HolderId, readAt: nat, content: Content)
    requires c.span == Full
    ensures var w := Run(c, Start(file, leftover), ops + [Op.Abandon(holder)]).world;
            && Written(c, w, holder, readAt, content) == (w, Err(Lock(Expired)))
            && Progressed(c, w, holder) == (w, Ok(()))
  {
    hide Run, Written, Progressed, Abandoned;
    var before := Run(c, Start(file, leftover), ops);
    RunMore(c, Start(file, leftover), ops, Op.Abandon(holder));
    AbandonedMeans(c, before.world, holder);
    FullSpanAnswers(c, Abandoned(c, before.world, holder), holder, readAt, content);
    ProgressMeans(c, Abandoned(c, before.world, holder), holder);
  }
}
