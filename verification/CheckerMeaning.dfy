/** What the checker's verdicts mean, for every history whatever, without replaying anything:
    statements about positions in the log. */
module CheckerMeaning {
  import opened Types
  import opened Histories
  import opened Checkers

  lemma {:induction false} CollectIsEmpty(e: Log, at: (Log, Entry) -> seq<Violation>)
    ensures Collect(e, at) == [] <==> forall i | 0 <= i < |e| :: at(e[..i], e[i]) == []
  {
    if e == [] {
    } else {
      var n := |e| - 1;
      CollectIsEmpty(e[..n], at);
      forall i | 0 <= i < n
        ensures at(e[..n][..i], e[..n][i]) == at(e[..i], e[i])
      {
        assert e[..n][..i] == e[..i];
      }
    }
  }

  // ---------- P1

  /** This event is an attempt by the holder, or settles one. */
  predicate ConcernsWrite(event: Event, holder: HolderId) {
    match event
    case WriteAttempted(h, _, _) => h == holder
    case WriteAccepted(h, _, _, _) => h == holder
    case WriteRefused(h, _, _) => h == holder
    case _ => false
  }

  /** The holder's attempt at i is still unsettled at the end of the log. */
  ghost predicate Unsettled(e: Log, holder: HolderId, i: int) {
    && 0 <= i < |e|
    && e[i].event.WriteAttempted? && e[i].event.holder == holder
    && forall k | i < k < |e| :: !ConcernsWrite(e[k].event, holder)
  }

  lemma {:induction false} PendingAttemptMeans(e: Log, holder: HolderId)
    requires Numbered(e)
    ensures forall i: nat :: PendingAttempt(e, holder) == Some(i) <==> Unsettled(e, holder, i)
  {
    if e == [] {
    } else {
      var n := |e| - 1;
      PendingAttemptMeans(e[..n], holder);
      forall i: nat
        ensures PendingAttempt(e, holder) == Some(i) <==> Unsettled(e, holder, i)
      {
        if ConcernsWrite(e[n].event, holder) {
          assert i < n ==> !Unsettled(e, holder, i);
        } else {
          assert Unsettled(e[..n], holder, i) <==> Unsettled(e, holder, i);
        }
      }
    }
  }

  /** An attempt at i accepted at j, with nothing of the same holder's in between. */
  ghost predicate AcceptedWindow(e: Log, w: Window) {
    && w.start < w.end < |e|
    && e[w.start].event.WriteAttempted? && e[w.start].event.holder == w.holder
    && e[w.end].event.WriteAccepted? && e[w.end].event.holder == w.holder
    && forall k | w.start < k < w.end :: !ConcernsWrite(e[k].event, w.holder)
  }

  lemma {:induction false} WindowsMeans(e: Log)
    requires Numbered(e)
    ensures forall w :: w in Windows(e) <==> AcceptedWindow(e, w)
  {
    if e == [] {
    } else {
      var n := |e| - 1;
      WindowsMeans(e[..n]);
      forall w
        ensures w in Windows(e) <==> AcceptedWindow(e, w)
      {
        PendingAttemptMeans(e[..n], w.holder);
        assert w in Windows(e) <==> w in Windows(e[..n]) || w in WindowAt(e[..n], e[n]);
        if w.end == n {
          assert !AcceptedWindow(e[..n], w);
          assert AcceptedWindow(e, w) <==>
                 e[n].event.WriteAccepted? && e[n].event.holder == w.holder && Unsettled(e[..n], w.holder, w.start);
        } else {
          assert AcceptedWindow(e, w) <==> AcceptedWindow(e[..n], w);
        }
      }
    }
  }

  ghost predicate Clear(ws: seq<Window>, i: int, n: int) {
    0 <= i < |ws| && n <= |ws| && forall j | i < j < n :: !Overlap(ws[i], ws[j])
  }

  lemma {:induction false} OverlapsOfIsEmpty(ws: seq<Window>, i: nat, n: nat)
    requires i < |ws| && n <= |ws|
    ensures OverlapsOf(ws, i, n) == [] <==> Clear(ws, i, n)
  {
    if n > i + 1 {
      OverlapsOfIsEmpty(ws, i, n - 1);
    }
  }

  lemma {:induction false} OverlapsIsEmpty(ws: seq<Window>, m: nat)
    requires m <= |ws|
    ensures Overlaps(ws, m) == [] <==> forall i | 0 <= i < m :: Clear(ws, i, |ws|)
  {
    if m == 0 {
    } else {
      OverlapsIsEmpty(ws, m - 1);
      OverlapsOfIsEmpty(ws, m - 1, |ws|);
    }
  }

  /** P1 passes exactly when accepted windows of different holders never meet. */
  lemma {:induction false} P1Means(e: Log)
    requires Numbered(e)
    ensures P1Found(e) == [] <==>
            forall a, b | AcceptedWindow(e, a) && AcceptedWindow(e, b) :: !Overlap(a, b)
  {
    var ws := Windows(e);
    WindowsMeans(e);
    OverlapsIsEmpty(ws, |ws|);
    if P1Found(e) == [] {
      forall a, b | AcceptedWindow(e, a) && AcceptedWindow(e, b)
        ensures !Overlap(a, b)
      {
        assert a in ws && b in ws;
        var i :| 0 <= i < |ws| && ws[i] == a;
        var j :| 0 <= j < |ws| && ws[j] == b;
        assert i < j ==> Clear(ws, i, |ws|);
        assert j < i ==> Clear(ws, j, |ws|);
      }
    } else {
      var i :| 0 <= i < |ws| && !Clear(ws, i, |ws|);
      var j :| i < j < |ws| && Overlap(ws[i], ws[j]);
      assert ws[i] in ws && ws[j] in ws;
      assert AcceptedWindow(e, ws[i]) && AcceptedWindow(e, ws[j]);
    }
  }

  // ---------- P2 and P5

  /** This event ends a hold on the ticket. */
  predicate Ends(event: Event, ticket: nat) {
    match event
    case GiveBack(_, t) => t == ticket
    case LeaseExpired(_, t) => t == ticket
    case Revoked(_) => true
    case _ => false
  }

  /** The grant at i put the ticket in someone's hands and nothing has ended it before n. */
  ghost predicate Outstanding(e: Log, i: int, ticket: nat, n: int) {
    && 0 <= i < n <= |e|
    && e[i].event.TakeGranted? && e[i].event.ticket == ticket
    && forall k | i < k < n :: !Ends(e[k].event, ticket)
  }

  ghost predicate HeldAt(e: Log, ticket: nat, n: int) {
    exists i :: Outstanding(e, i, ticket, n)
  }

  lemma {:induction false} ReplayMeans(e: Log, n: nat, ticket: nat)
    requires n <= |e|
    ensures ticket in Replay(e[..n]) <==> HeldAt(e, ticket, n)
  {
    if n == 0 {
    } else {
      ReplayMeans(e, n - 1, ticket);
      assert e[..n][..n - 1] == e[..n - 1];
      var event := e[n - 1].event;
      if event.TakeGranted? && event.ticket == ticket {
        assert Outstanding(e, n - 1, ticket, n);
      } else if Ends(event, ticket) {
        assert forall i :: !Outstanding(e, i, ticket, n);
      } else {
        assert forall i :: Outstanding(e, i, ticket, n) ==> Outstanding(e, i, ticket, n - 1);
        var m := n - 1;
        if i :| Outstanding(e, i, ticket, m) {
          assert Outstanding(e, i, ticket, n);
        }
      }
    }
  }

  lemma {:induction false} HighestMeans(e: Log)
    ensures match Highest(e)
            case None => forall i | 0 <= i < |e| :: !e[i].event.TicketIssued?
            case Some(h) =>
              && (exists i :: 0 <= i < |e| && e[i].event == TicketIssued(h))
              && forall i | 0 <= i < |e| && e[i].event.TicketIssued? :: e[i].event.ticket <= h
  {
    if e == [] {
    } else {
      var n := |e| - 1;
      HighestMeans(e[..n]);
      if Highest(e[..n]).Some? {
        var i :| 0 <= i < n && e[..n][i].event == TicketIssued(Highest(e[..n]).value);
        assert e[i].event == TicketIssued(Highest(e[..n]).value);
      }
      if e[n].event.TicketIssued? && Highest(e) == Some(e[n].event.ticket) {
        assert e[n].event == TicketIssued(e[n].event.ticket);
      }
    }
  }

  /** Issued tickets never move backwards: every pair, not just neighbours. */
  ghost predicate TicketsIncrease(e: Log) {
    forall i, j | 0 <= i < j < |e| && e[i].event.TicketIssued? && e[j].event.TicketIssued? ::
      e[i].event.ticket < e[j].event.ticket
  }

  /** A barrier exceeds every ticket it takes away. */
  ghost predicate BarriersExceed(e: Log) {
    forall j, t: nat | 0 <= j < |e| && e[j].event.Revoked? && e[j].event.barrier.Some? && HeldAt(e, t, j) ::
      t < e[j].event.barrier.value
  }

  /** An accepted write's ticket is held, and no higher one is. */
  ghost predicate AcceptedInForce(e: Log, j: int)
    requires 0 <= j < |e| && e[j].event.WriteAccepted?
  {
    && HeldAt(e, e[j].event.ticket, j)
    && forall t: nat | HeldAt(e, t, j) :: t <= e[j].event.ticket
  }

  lemma {:induction false} P2AtIssue(e: Log, j: nat)
    requires j < |e| && e[j].event.TicketIssued?
    ensures P2At(e[..j], e[j]) == [] <==>
            forall i | 0 <= i < j && e[i].event.TicketIssued? :: e[i].event.ticket < e[j].event.ticket
  {
    HighestMeans(e[..j]);
    if Highest(e[..j]).Some? {
      var i :| 0 <= i < j && e[..j][i].event == TicketIssued(Highest(e[..j]).value);
      assert e[i].event.TicketIssued?;
      forall i' | 0 <= i' < j && e[i'].event.TicketIssued?
        ensures e[i'].event.ticket <= Highest(e[..j]).value
      {
        assert e[..j][i'] == e[i'];
      }
    } else {
      assert forall i | 0 <= i < j :: e[..j][i] == e[i];
    }
  }

  lemma {:induction false} P2AtRevocation(e: Log, j: nat)
    requires j < |e| && e[j].event.Revoked?
    ensures P2At(e[..j], e[j]) == [] <==>
            e[j].event.barrier.None? || forall t: nat | HeldAt(e, t, j) :: t < e[j].event.barrier.value
  {
    var keys := Replay(e[..j]).Keys;
    forall t: nat
      ensures t in keys <==> HeldAt(e, t, j)
    {
      ReplayMeans(e, j, t);
    }
  }

  lemma {:induction false} P2AtAccept(e: Log, j: nat)
    requires j < |e| && e[j].event.WriteAccepted?
    ensures P2At(e[..j], e[j]) == [] <==> AcceptedInForce(e, j)
  {
    var keys := Replay(e[..j]).Keys;
    forall t: nat
      ensures t in keys <==> HeldAt(e, t, j)
    {
      ReplayMeans(e, j, t);
    }
  }

  /** P2 passes exactly when tickets increase, barriers exceed what they revoke, and every accepted
      write was made under the highest ticket held. */
  lemma {:induction false} P2Means(e: Log)
    ensures P2Found(e) == [] <==>
            && TicketsIncrease(e)
            && BarriersExceed(e)
            && forall j | 0 <= j < |e| && e[j].event.WriteAccepted? :: AcceptedInForce(e, j)
  {
    CollectIsEmpty(e, P2At);
    forall j | 0 <= j < |e|
      ensures e[j].event.TicketIssued? ==>
                (P2At(e[..j], e[j]) == [] <==>
                 forall i | 0 <= i < j && e[i].event.TicketIssued? :: e[i].event.ticket < e[j].event.ticket)
      ensures e[j].event.Revoked? ==>
                (P2At(e[..j], e[j]) == [] <==>
                 e[j].event.barrier.None? || forall t: nat | HeldAt(e, t, j) :: t < e[j].event.barrier.value)
      ensures e[j].event.WriteAccepted? ==> (P2At(e[..j], e[j]) == [] <==> AcceptedInForce(e, j))
      ensures !e[j].event.TicketIssued? && !e[j].event.Revoked? && !e[j].event.WriteAccepted? ==>
                P2At(e[..j], e[j]) == []
    {
      if e[j].event.TicketIssued? {
        P2AtIssue(e, j);
      } else if e[j].event.Revoked? {
        P2AtRevocation(e, j);
      } else if e[j].event.WriteAccepted? {
        P2AtAccept(e, j);
      }
    }
  }

  /** P2's map and P5's map are on the same tickets. */
  lemma {:induction false} UnmatchedIsReplay(e: Log)
    ensures Unmatched(e).Keys == Replay(e).Keys
  {
    if e == [] {
    } else {
      UnmatchedIsReplay(e[..|e| - 1]);
    }
  }

  /** P5 passes exactly when every grant is followed by a matching end. */
  lemma {:induction false} P5Means(e: Log)
    ensures Unmatched(e) == map[] <==>
            forall i | 0 <= i < |e| && e[i].event.TakeGranted? ::
              exists k :: i < k < |e| && Ends(e[k].event, e[i].event.ticket)
  {
    UnmatchedIsReplay(e);
    assert e[..|e|] == e;
    assert Unmatched(e) == map[] <==> Unmatched(e).Keys == {};
    if Unmatched(e) == map[] {
      forall i | 0 <= i < |e| && e[i].event.TakeGranted?
        ensures exists k :: i < k < |e| && Ends(e[k].event, e[i].event.ticket)
      {
        ReplayMeans(e, |e|, e[i].event.ticket);
        assert !Outstanding(e, i, e[i].event.ticket, |e|);
      }
    } else {
      var t :| t in Unmatched(e).Keys;
      ReplayMeans(e, |e|, t);
      var i :| Outstanding(e, i, t, |e|);
      assert e[i].event.TakeGranted?;
    }
  }

  // ---------- P3 and P4

  lemma {:induction false} LastAcceptedMeans(e: Log)
    ensures match LastAccepted(e)
            case None => forall i | 0 <= i < |e| :: !e[i].event.WriteAccepted?
            case Some(j) => forall i | j < i < |e| :: !e[i].event.WriteAccepted?
  {
    if e == [] {
    } else {
      LastAcceptedMeans(e[..|e| - 1]);
    }
  }

  /** The content the history says the file should have. */
  function Due(e: Log, initial: Content): Content {
    match LastAccepted(e)
    case Some(j) => e[j].event.content
    case None => initial
  }

  /** P3 passes exactly when the file holds the last accepted content, or the initial one. */
  lemma {:induction false} P3Means(e: Log, final: Content, initial: Content)
    ensures P3Found(e, final, initial) == [] <==> final == Due(e, initial)
  {
  }

  ghost predicate WasAccepted(e: Log, content: Content) {
    exists i :: 0 <= i < |e| && e[i].event.WriteAccepted? && e[i].event.content == content
  }

  ghost predicate WasRefused(e: Log, content: Content) {
    exists i :: 0 <= i < |e| && e[i].event.WriteRefused? && e[i].event.content == content
  }

  lemma {:induction false} AcceptedContentsMeans(e: Log, content: Content)
    ensures content in AcceptedContents(e) <==> WasAccepted(e, content)
  {
    if e == [] {
    } else {
      var n := |e| - 1;
      AcceptedContentsMeans(e[..n], content);
      if WasAccepted(e[..n], content) {
        var i :| 0 <= i < n && e[..n][i].event.WriteAccepted? && e[..n][i].event.content == content;
        assert e[i].event.content == content;
      }
      if WasAccepted(e, content) {
        var i :| 0 <= i < |e| && e[i].event.WriteAccepted? && e[i].event.content == content;
        assert i < n ==> e[..n][i] == e[i];
      }
    }
  }

  lemma {:induction false} RefusedButFinalMeans(e: Log, final: Content, accepted: seq<Content>)
    ensures RefusedButFinal(e, final, accepted) == [] <==> final in accepted || !WasRefused(e, final)
  {
    if e == [] {
    } else {
      var n := |e| - 1;
      RefusedButFinalMeans(e[..n], final, accepted);
      if WasRefused(e[..n], final) {
        var i :| 0 <= i < n && e[..n][i].event.WriteRefused? && e[..n][i].event.content == final;
        assert e[i].event.content == final;
      }
      if WasRefused(e, final) {
        var i :| 0 <= i < |e| && e[i].event.WriteRefused? && e[i].event.content == final;
        assert i < n ==> e[..n][i] == e[i];
      }
    }
  }

  /** P4 passes exactly when the final content was accepted, or is the initial one and was
      never refused. */
  lemma {:induction false} P4Means(e: Log, final: Content, initial: Content)
    ensures P4Found(e, final, initial) == [] <==>
            WasAccepted(e, final) || (final == initial && !WasRefused(e, final))
  {
    AcceptedContentsMeans(e, final);
    RefusedButFinalMeans(e, final, AcceptedContents(e));
  }

  // ---------- P6

  /** The event is an attempt or an acceptance of this holder's. */
  predicate Rebases(event: Event, holder: HolderId) {
    match event
    case WriteAttempted(h, _, _) => h == holder
    case WriteAccepted(h, _, _, _) => h == holder
    case _ => false
  }

  ghost predicate LatestBasis(e: Log, holder: HolderId, i: int, n: int) {
    && 0 <= i < n <= |e|
    && e[i].event.WriteAttempted? && e[i].event.holder == holder
    && forall k | i < k < n :: !Rebases(e[k].event, holder)
  }

  lemma {:induction false} BasedOnMeans(e: Log, holder: HolderId, n: nat)
    requires n <= |e|
    ensures forall i | LatestBasis(e, holder, i, n) :: BasedOn(e[..n], holder) == Some(e[i].event.expected)
    ensures BasedOn(e[..n], holder).Some? ==> exists i :: LatestBasis(e, holder, i, n)
  {
    if n == 0 {
    } else {
      BasedOnMeans(e, holder, n - 1);
      assert e[..n][..n - 1] == e[..n - 1];
      if !Rebases(e[n - 1].event, holder) {
        assert forall i :: LatestBasis(e, holder, i, n) ==> LatestBasis(e, holder, i, n - 1);
        var m := n - 1;
        if i :| LatestBasis(e, holder, i, m) {
          assert LatestBasis(e, holder, i, n);
        }
      } else if e[n - 1].event.WriteAttempted? {
        assert LatestBasis(e, holder, n - 1, n);
        assert forall i | LatestBasis(e, holder, i, n) :: i == n - 1;
      } else {
        assert forall i :: !LatestBasis(e, holder, i, n);
      }
    }
  }

  lemma {:induction false} VersionInForceMeans(e: Log)
    ensures VersionInForce(e) ==
            match LastAccepted(e)
            case None => 0
            case Some(j) => e[j].event.version
  {
    if e == [] {
    } else {
      VersionInForceMeans(e[..|e| - 1]);
    }
  }

  /** P6 passes exactly when each accepted write's latest attempt expected the version of the
      accepted write before it. */
  lemma {:induction false} P6Means(e: Log)
    ensures P6Found(e) == [] <==>
            forall j | 0 <= j < |e| && e[j].event.WriteAccepted? ::
              exists i :: LatestBasis(e, e[j].event.holder, i, j) && e[i].event.expected == VersionInForce(e[..j])
  {
    CollectIsEmpty(e, P6At);
    forall j | 0 <= j < |e| && e[j].event.WriteAccepted?
      ensures P6At(e[..j], e[j]) == [] <==>
              exists i :: LatestBasis(e, e[j].event.holder, i, j) && e[i].event.expected == VersionInForce(e[..j])
    {
      BasedOnMeans(e, e[j].event.holder, j);
    }
  }

  // ---------- P7

  lemma {:induction false} SeenMeans(e: Log, h: HolderId)
    ensures h in Seen(e) <==> exists i :: 0 <= i < |e| && HolderOf(e[i].event) == Some(h)
  {
    if e == [] {
    } else {
      var n := |e| - 1;
      SeenMeans(e[..n], h);
      if h in Seen(e[..n]) {
        var i :| 0 <= i < n && HolderOf(e[..n][i].event) == Some(h);
        assert HolderOf(e[i].event) == Some(h);
      }
      if HolderOf(e[n].event) != Some(h) {
        assert forall i | 0 <= i < n :: e[..n][i] == e[i];
      }
    }
  }

  /** The agent finished, or is wedged. */
  predicate EndsAgent(event: Event, h: HolderId) {
    event == AgentFinished(h) || event == AgentWedged(h)
  }

  ghost predicate Ended(e: Log, h: HolderId) {
    exists j :: 0 <= j < |e| && EndsAgent(e[j].event, h)
  }

  lemma {:induction false} EndedMeans(e: Log, h: HolderId)
    ensures h in Wedged(e) || h in DoneWith(e) <==> Ended(e, h)
  {
    if e == [] {
    } else {
      var n := |e| - 1;
      EndedMeans(e[..n], h);
      if Ended(e[..n], h) {
        var j :| 0 <= j < n && EndsAgent(e[..n][j].event, h);
        assert EndsAgent(e[j].event, h);
      }
      if Ended(e, h) && !EndsAgent(e[n].event, h) {
        var j :| 0 <= j < |e| && EndsAgent(e[j].event, h);
        assert EndsAgent(e[..n][j].event, h);
      }
    }
  }

  /** Whoever the log is about has ended. */
  ghost predicate EveryoneEnded(e: Log) {
    forall i, h | 0 <= i < |e| && HolderOf(e[i].event) == Some(h) :: Ended(e, h)
  }

  /** P7 passes exactly when everyone the history is about finished or is wedged. */
  lemma {:induction false} P7Means(e: Log)
    ensures Unfinished(e) == map[] <==> EveryoneEnded(e)
  {
    hide Seen, Wedged, DoneWith, Ended;
    forall h
      ensures h in Seen(e) <==> exists i :: 0 <= i < |e| && HolderOf(e[i].event) == Some(h)
      ensures h in Wedged(e) || h in DoneWith(e) <==> Ended(e, h)
    {
      SeenMeans(e, h);
      EndedMeans(e, h);
    }
    assert Unfinished(e) == map[] <==> Unfinished(e).Keys == {};
    if EveryoneEnded(e) {
      assert forall h :: h !in Unfinished(e);
    } else {
      var i, h :| 0 <= i < |e| && HolderOf(e[i].event) == Some(h) && !Ended(e, h);
      assert h in Unfinished(e).Keys;
    }
  }

  // ---------- P8

  ghost predicate LatestRevocation(e: Log, i: int, n: int) {
    && 0 <= i < n <= |e|
    && e[i].event.Revoked?
    && forall k | i < k < n :: !e[k].event.Revoked?
  }

  lemma {:induction false} LatestBarrierMeans(e: Log, n: nat)
    requires n <= |e|
    ensures forall i | LatestRevocation(e, i, n) :: LatestBarrier(e[..n]) == e[i].event.barrier
    ensures LatestBarrier(e[..n]).Some? ==> exists i :: LatestRevocation(e, i, n)
  {
    if n == 0 {
    } else {
      LatestBarrierMeans(e, n - 1);
      assert e[..n][..n - 1] == e[..n - 1];
      if e[n - 1].event.Revoked? {
        assert LatestRevocation(e, n - 1, n);
        assert forall i | LatestRevocation(e, i, n) :: i == n - 1;
      } else {
        assert forall i :: LatestRevocation(e, i, n) ==> LatestRevocation(e, i, n - 1);
        var m := n - 1;
        if i :| LatestRevocation(e, i, m) {
          assert LatestRevocation(e, i, n);
        }
      }
    }
  }

  ghost predicate Clears(barrier: Option<nat>, ticket: nat) {
    barrier.Some? ==> barrier.value <= ticket
  }

  /** P8 passes exactly when each accepted ticket clears the barrier of the latest revocation. */
  lemma {:induction false} P8Means(e: Log)
    ensures P8Found(e) == [] <==>
            forall i, j | 0 <= j < |e| && e[j].event.WriteAccepted? && LatestRevocation(e, i, j) ::
              Clears(e[i].event.barrier, e[j].event.ticket)
  {
    CollectIsEmpty(e, P8At);
    forall j | 0 <= j < |e| && e[j].event.WriteAccepted?
      ensures P8At(e[..j], e[j]) == [] <==>
              forall i | LatestRevocation(e, i, j) :: Clears(e[i].event.barrier, e[j].event.ticket)
    {
      LatestBarrierMeans(e, j);
    }
  }

  /** Barriers grow from one revocation to the next. */
  ghost predicate BarriersIncrease(e: Log) {
    && (forall i | 0 <= i < |e| && e[i].event.Revoked? :: e[i].event.barrier.Some?)
    && (forall i, j | 0 <= i < j < |e| && e[i].event.Revoked? && e[j].event.Revoked? ::
          e[i].event.barrier.value < e[j].event.barrier.value)
  }

  lemma {:induction false} SomeLatestRevocation(e: Log, i: nat, n: nat) returns (k: nat)
    requires i < n <= |e| && e[i].event.Revoked?
    ensures i <= k && LatestRevocation(e, k, n)
  {
    if e[n - 1].event.Revoked? {
      k := n - 1;
    } else {
      k := SomeLatestRevocation(e, i, n - 1);
    }
  }

  /** Remembering only the latest barrier is enough: the verdict is the one that comparing with
      every earlier barrier would give. */
  lemma {:induction false} OneBarrierSuffices(e: Log)
    requires BarriersIncrease(e)
    ensures P8Found(e) == [] <==>
            forall i, j | 0 <= i < j < |e| && e[i].event.Revoked? && e[j].event.WriteAccepted? ::
              Clears(e[i].event.barrier, e[j].event.ticket)
  {
    P8Means(e);
    if P8Found(e) == [] {
      forall i, j | 0 <= i < j < |e| && e[i].event.Revoked? && e[j].event.WriteAccepted?
        ensures Clears(e[i].event.barrier, e[j].event.ticket)
      {
        var k := SomeLatestRevocation(e, i, j);
        assert i == k || e[i].event.barrier.value < e[k].event.barrier.value;
      }
    }
  }
}
