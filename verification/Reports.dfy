/** Where the checker reports: for each property, the positions at which a violation is reported, as
    statements about positions in the history. */
module Reports {
  import opened Types
  import opened Histories
  import opened Checkers
  import opened CheckerMeaning

  lemma {:induction false} CollectMeans(e: Log, at: (Log, Entry) -> seq<Violation>, v: Violation)
    ensures v in Collect(e, at) <==> exists i :: 0 <= i < |e| && v in at(e[..i], e[i])
  {
    if e == [] {
    } else {
      var n := |e| - 1;
      CollectMeans(e[..n], at, v);
      forall i | 0 <= i < n
        ensures at(e[..n][..i], e[..n][i]) == at(e[..i], e[i])
      {
        assert e[..n][..i] == e[..i];
      }
    }
  }

  // ---------- P1

  lemma {:induction false} WindowsAscend(e: Log)
    requires Numbered(e)
    ensures forall i, j | 0 <= i < j < |Windows(e)| :: Windows(e)[i].end < Windows(e)[j].end
    ensures forall i | 0 <= i < |Windows(e)| :: Windows(e)[i].end < |e|
  {
    if e == [] {
    } else {
      WindowsAscend(e[..|e| - 1]);
    }
  }

  lemma {:induction false} OverlapsOfMeans(ws: seq<Window>, i: nat, n: nat, v: Violation)
    requires i < |ws| && n <= |ws|
    ensures v in OverlapsOf(ws, i, n) <==>
            v.property == P1MutualExclusion &&
            exists j :: i < j < n && Overlap(ws[i], ws[j]) && v.at == Some(ws[j].start)
  {
    if n > i + 1 {
      OverlapsOfMeans(ws, i, n - 1, v);
    }
  }

  lemma {:induction false} OverlapsMeans(ws: seq<Window>, m: nat, v: Violation)
    requires m <= |ws|
    ensures v in Overlaps(ws, m) <==>
            v.property == P1MutualExclusion &&
            exists i, j :: 0 <= i < m && i < j < |ws| && Overlap(ws[i], ws[j]) && v.at == Some(ws[j].start)
  {
    hide OverlapsOf;
    if m == 0 {
    } else {
      OverlapsMeans(ws, m - 1, v);
      OverlapsOfMeans(ws, m - 1, |ws|, v);
    }
  }

  /** Two accepted windows of different holders meet, and the one accepted later started here. */
  ghost predicate MeetsAt(e: Log, start: nat) {
    exists a, b :: AcceptedWindow(e, a) && AcceptedWindow(e, b) && a.end < b.end && Overlap(a, b) && start == b.start
  }

  /** Two windows in the list, in the order of their acceptances. */
  lemma {:induction false} WindowsPlaced(e: Log, a: Window, b: Window) returns (i: nat, j: nat)
    requires Numbered(e) && AcceptedWindow(e, a) && AcceptedWindow(e, b) && a.end < b.end
    ensures i < j < |Windows(e)| && Windows(e)[i] == a && Windows(e)[j] == b
  {
    var ws := Windows(e);
    WindowsMeans(e);
    WindowsAscend(e);
    hide Windows, AcceptedWindow;
    assert a in ws && b in ws;
    i :| 0 <= i < |ws| && ws[i] == a;
    j :| 0 <= j < |ws| && ws[j] == b;
  }

  lemma {:induction false} WindowsAccepted(e: Log, i: nat, j: nat)
    requires Numbered(e) && i < j < |Windows(e)|
    ensures AcceptedWindow(e, Windows(e)[i]) && AcceptedWindow(e, Windows(e)[j])
    ensures Windows(e)[i].end < Windows(e)[j].end
  {
    WindowsMeans(e);
    WindowsAscend(e);
    hide Windows, AcceptedWindow;
    assert Windows(e)[i] in Windows(e) && Windows(e)[j] in Windows(e);
  }

  lemma {:induction false} P1Reports(e: Log, v: Violation)
    requires Numbered(e)
    ensures v in P1Found(e) <==> v.property == P1MutualExclusion && v.at.Some? && MeetsAt(e, v.at.value)
  {
    var ws := Windows(e);
    OverlapsMeans(ws, |ws|, v);
    hide Windows, Overlaps, AcceptedWindow, Overlap;
    if v in P1Found(e) {
      var i, j :| 0 <= i < |ws| && i < j < |ws| && Overlap(ws[i], ws[j]) && v.at == Some(ws[j].start);
      WindowsAccepted(e, i, j);
    }
    if v.property == P1MutualExclusion && v.at.Some? && MeetsAt(e, v.at.value) {
      var a, b :| AcceptedWindow(e, a) && AcceptedWindow(e, b) && a.end < b.end && Overlap(a, b)
                  && v.at.value == b.start;
      var i, j := WindowsPlaced(e, a, b);
    }
  }

  // ---------- P2, P6 and P8: entry by entry

  /** The issue, the barrier or the acceptance at j breaks ticket order. */
  ghost predicate BreaksTicketsAt(e: Log, j: int) {
    && 0 <= j < |e|
    && match e[j].event
       case TicketIssued(t) => exists i :: 0 <= i < j && e[i].event.TicketIssued? && t <= e[i].event.ticket
       case Revoked(b) => b.Some? && exists t: nat :: HeldAt(e, t, j) && b.value <= t
       case WriteAccepted(_, _, _, _) => !AcceptedInForce(e, j)
       case _ => false
  }

  lemma {:induction false} P2AtMeans(e: Log, j: nat)
    requires j < |e|
    ensures P2At(e[..j], e[j]) == if BreaksTicketsAt(e, j) then [Violation(P2TicketValidity, Some(e[j].seqNo))] else []
  {
    match e[j].event
    case TicketIssued(t) => P2AtIssue(e, j);
    case Revoked(b) => P2AtRevocation(e, j);
    case WriteAccepted(_, _, _, _) => P2AtAccept(e, j);
    case _ =>
  }

  lemma {:induction false} P2Reports(e: Log, v: Violation)
    requires Numbered(e)
    ensures v in P2Found(e) <==> v.property == P2TicketValidity && v.at.Some? && BreaksTicketsAt(e, v.at.value)
  {
    CollectMeans(e, P2At, v);
    hide BreaksTicketsAt, P2At;
    forall j | 0 <= j < |e|
      ensures v in P2At(e[..j], e[j]) <==> v == Violation(P2TicketValidity, Some(j)) && BreaksTicketsAt(e, j)
    {
      P2AtMeans(e, j);
    }
    if v.at.Some? && BreaksTicketsAt(e, v.at.value) {
      Within(e, v.at.value);
    }
  }

  lemma {:induction false} Within(e: Log, j: int)
    requires BreaksTicketsAt(e, j)
    ensures 0 <= j < |e|
  {
  }

  /** The acceptance at j was not based on the version of the acceptance before it. */
  ghost predicate StaleAt(e: Log, j: int) {
    && 0 <= j < |e| && e[j].event.WriteAccepted?
    && !exists i :: LatestBasis(e, e[j].event.holder, i, j) && e[i].event.expected == VersionInForce(e[..j])
  }

  lemma {:induction false} P6Reports(e: Log, v: Violation)
    requires Numbered(e)
    ensures v in P6Found(e) <==> v.property == P6Freshness && v.at.Some? && StaleAt(e, v.at.value)
  {
    CollectMeans(e, P6At, v);
    hide VersionInForce, LatestBasis, BasedOn;
    forall j | 0 <= j < |e|
      ensures v in P6At(e[..j], e[j]) <==> v == Violation(P6Freshness, Some(j)) && StaleAt(e, j)
    {
      if e[j].event.WriteAccepted? {
        BasedOnMeans(e, e[j].event.holder, j);
      }
    }
  }

  /** The acceptance at j is below the barrier of the latest revocation. */
  ghost predicate BelowBarrierAt(e: Log, j: int) {
    && 0 <= j < |e| && e[j].event.WriteAccepted?
    && exists i :: LatestRevocation(e, i, j) && !Clears(e[i].event.barrier, e[j].event.ticket)
  }

  lemma {:induction false} P8Reports(e: Log, v: Violation)
    requires Numbered(e)
    ensures v in P8Found(e) <==> v.property == P8Preemptibility && v.at.Some? && BelowBarrierAt(e, v.at.value)
  {
    CollectMeans(e, P8At, v);
    hide LatestBarrier;
    forall j | 0 <= j < |e|
      ensures v in P8At(e[..j], e[j]) <==> v == Violation(P8Preemptibility, Some(j)) && BelowBarrierAt(e, j)
    {
      LatestBarrierMeans(e, j);
    }
  }

  // ---------- P3 and P4: against the final content

  lemma {:induction false} P3Reports(e: Log, final: Content, initial: Content, v: Violation)
    requires Numbered(e)
    ensures v in P3Found(e, final, initial) <==>
            v == Violation(P3NoLostWrite, LastAccepted(e)) && final != Due(e, initial)
  {
  }

  /** The refusal at j proposed what the file holds now, and nobody had that accepted. */
  ghost predicate PhantomAt(e: Log, final: Content, j: int) {
    0 <= j < |e| && e[j].event.WriteRefused? && e[j].event.content == final && !WasAccepted(e, final)
  }

  lemma {:induction false} RefusedReports(e: Log, final: Content, accepted: seq<Content>, v: Violation)
    requires Numbered(e)
    ensures v in RefusedButFinal(e, final, accepted) <==>
            v.property == P4NoPhantomWrite && v.at.Some? && v.at.value < |e|
            && e[v.at.value].event.WriteRefused? && e[v.at.value].event.content == final && final !in accepted
  {
    if e == [] {
    } else {
      RefusedReports(e[..|e| - 1], final, accepted, v);
    }
  }

  lemma {:induction false} P4Reports(e: Log, final: Content, initial: Content, v: Violation)
    requires Numbered(e)
    ensures v in P4Found(e, final, initial) <==>
            v.property == P4NoPhantomWrite &&
            match v.at
            case None => final != initial && !WasAccepted(e, final)
            case Some(j) => PhantomAt(e, final, j)
  {
    AcceptedContentsMeans(e, final);
    RefusedReports(e, final, AcceptedContents(e), v);
    hide RefusedButFinal, AcceptedContents;
  }

  // ---------- P5 and P7: what is left at the end

  /** The grant at i is the latest of its ticket and nothing has ended it. */
  ghost predicate LeaksAt(e: Log, i: int) {
    && 0 <= i < |e| && e[i].event.TakeGranted?
    && forall k | i < k < |e| ::
         && !Ends(e[k].event, e[i].event.ticket)
         && !(e[k].event.TakeGranted? && e[k].event.ticket == e[i].event.ticket)
  }

  lemma {:induction false} UnmatchedMeans(e: Log, t: nat, i: nat)
    requires Numbered(e)
    ensures t in Unmatched(e) && Unmatched(e)[t].1 == i <==> LeaksAt(e, i) && e[i].event.ticket == t
  {
    if e == [] {
    } else {
      var n := |e| - 1;
      UnmatchedMeans(e[..n], t, i);
      var event := e[n].event;
      if i < n {
        assert LeaksAt(e, i) <==> LeaksAt(e[..n], i) && !Ends(event, e[i].event.ticket)
                                  && !(event.TakeGranted? && event.ticket == e[i].event.ticket);
      }
    }
  }

  lemma {:induction false} P5Reports(e: Log, at: Option<nat>)
    requires Numbered(e)
    ensures Leaks(Unmatched(e), at) <==> at.Some? && LeaksAt(e, at.value)
  {
    hide Unmatched, LeaksAt;
    if t :| t in Unmatched(e) && at == Some(Unmatched(e)[t].1) {
      UnmatchedMeans(e, t, at.value);
    }
    if at.Some? && LeaksAt(e, at.value) {
      LeakIsGrant(e, at.value);
      UnmatchedMeans(e, e[at.value].event.ticket, at.value);
    }
  }

  lemma {:induction false} LeakIsGrant(e: Log, i: int)
    requires LeaksAt(e, i)
    ensures 0 <= i < |e| && e[i].event.TakeGranted?
  {
  }

  /** The entry at i is the first about an agent that never ended. */
  ghost predicate StragglerAt(e: Log, i: int) {
    && 0 <= i < |e| && HolderOf(e[i].event).Some?
    && (forall k | 0 <= k < i :: HolderOf(e[k].event) != HolderOf(e[i].event))
    && !Ended(e, HolderOf(e[i].event).value)
  }

  ghost predicate FirstAbout(e: Log, h: HolderId, i: int) {
    0 <= i < |e| && HolderOf(e[i].event) == Some(h) && forall k | 0 <= k < i :: HolderOf(e[k].event) != Some(h)
  }

  lemma {:induction false} SeenFirst(e: Log, h: HolderId, i: nat)
    requires Numbered(e)
    ensures h in Seen(e) && Seen(e)[h] == i <==> FirstAbout(e, h, i)
  {
    if e == [] {
    } else {
      var n := |e| - 1;
      SeenFirst(e[..n], h, i);
      SeenMeans(e[..n], h);
      if i < n {
        assert FirstAbout(e, h, i) <==> FirstAbout(e[..n], h, i);
      } else {
        assert forall k | 0 <= k < n :: e[..n][k] == e[k];
      }
    }
  }

  lemma {:induction false} P7Reports(e: Log, at: Option<nat>)
    requires Numbered(e)
    ensures (exists h :: h in Unfinished(e) && at == Some(Unfinished(e)[h])) <==> at.Some? && StragglerAt(e, at.value)
  {
    hide Seen, Wedged, DoneWith, Ended;
    if h :| h in Unfinished(e) && at == Some(Unfinished(e)[h]) {
      SeenFirst(e, h, at.value);
      EndedMeans(e, h);
    }
    if at.Some? && StragglerAt(e, at.value) {
      var h := HolderOf(e[at.value].event).value;
      SeenFirst(e, h, at.value);
      EndedMeans(e, h);
      assert h in Unfinished(e);
    }
  }

  // ---------- All of them

  /** Where the property is violated. */
  ghost predicate ViolatedAt(p: Property, e: Log, final: Content, initial: Content, at: Option<nat>) {
    match p
    case P1MutualExclusion => at.Some? && MeetsAt(e, at.value)
    case P2TicketValidity => at.Some? && BreaksTicketsAt(e, at.value)
    case P3NoLostWrite => at == LastAccepted(e) && final != Due(e, initial)
    case P4NoPhantomWrite =>
      (match at
       case None => final != initial && !WasAccepted(e, final)
       case Some(j) => PhantomAt(e, final, j))
    case P5NoLeakedLock => at.Some? && LeaksAt(e, at.value)
    case P6Freshness => at.Some? && StaleAt(e, at.value)
    case P7Liveness => at.Some? && StragglerAt(e, at.value)
    case P8Preemptibility => at.Some? && BelowBarrierAt(e, at.value)
  }

  /** On every numbered history, each property is reported at exactly the positions where it is
      violated. */
  lemma {:induction false} ReportedExactly(v: Violation, e: Log, final: Content, initial: Content)
    requires Numbered(e)
    ensures Reported(v, e, final, initial) <==> ViolatedAt(v.property, e, final, initial, v.at)
  {
    hide P1Found, P2Found, P3Found, P4Found, P6Found, P8Found, Unmatched, Unfinished, Due, LastAccepted, WasAccepted;
    hide MeetsAt, BreaksTicketsAt, PhantomAt, LeaksAt, StaleAt, StragglerAt, BelowBarrierAt;
    match v.property
    case P1MutualExclusion => P1Reports(e, v);
    case P2TicketValidity => P2Reports(e, v);
    case P3NoLostWrite => P3Reports(e, final, initial, v);
    case P4NoPhantomWrite => P4Reports(e, final, initial, v);
    case P5NoLeakedLock =>
      hide Leaks;
      P5Reports(e, v.at);
    case P6Freshness => P6Reports(e, v);
    case P7Liveness => P7Reports(e, v.at);
    case P8Preemptibility => P8Reports(e, v);
  }

  // ---------- Once each

  /** One violation for each position, in the order of the history; one without a position comes first. */
  ghost predicate OnceInOrder(found: seq<Violation>) {
    && (forall i | 0 < i < |found| :: found[i].at.Some?)
    && forall i, j | 0 <= i < j < |found| :: found[i].at.Some? ==> found[i].at.value < found[j].at.value
  }

  ghost predicate AtMostHere(found: seq<Violation>, at: nat) {
    |found| <= 1 && forall v | v in found :: v.at == Some(at)
  }

  /** All of them in order, each at a position below n. */
  ghost predicate OnceBelow(found: seq<Violation>, n: nat) {
    OnceInOrder(found) && forall i | 0 <= i < |found| :: found[i].at.Some? && found[i].at.value < n
  }

  lemma {:induction false} OnceMore(found: seq<Violation>, more: seq<Violation>, n: nat)
    requires OnceBelow(found, n) && AtMostHere(more, n)
    ensures OnceBelow(found + more, n + 1)
  {
    assert more == [] || more[0] in more;
  }

  lemma {:induction false} CollectOnce(e: Log, at: (Log, Entry) -> seq<Violation>)
    requires Numbered(e) && forall l, en :: AtMostHere(at(l, en), en.seqNo)
    ensures OnceBelow(Collect(e, at), |e|)
  {
    if e == [] {
    } else {
      var n := |e| - 1;
      CollectOnce(e[..n], at);
      hide OnceBelow, AtMostHere;
      assert AtMostHere(at(e[..n], e[n]), n);
      OnceMore(Collect(e[..n], at), at(e[..n], e[n]), n);
    }
  }

  lemma {:induction false} RefusedOnce(e: Log, final: Content, accepted: seq<Content>)
    requires Numbered(e)
    ensures OnceBelow(RefusedButFinal(e, final, accepted), |e|)
  {
    if e == [] {
    } else {
      var n := |e| - 1;
      RefusedOnce(e[..n], final, accepted);
      var here := if e[n].event.WriteRefused? && e[n].event.content == final && final !in accepted
                  then [Violation(P4NoPhantomWrite, Some(n))] else [];
      assert AtMostHere(here, n);
      hide OnceBelow, AtMostHere;
      OnceMore(RefusedButFinal(e[..n], final, accepted), here, n);
    }
  }

  /** The overlapping pairs of windows, by their places in the list. */
  function Pairs(ws: seq<Window>, m: nat): set<(nat, nat)> {
    set i: nat, j: nat | i < m && i < j < |ws| && i < |ws| && Overlap(ws[i], ws[j]) :: (i, j)
  }

  function PairsOf(ws: seq<Window>, i: nat, n: nat): set<(nat, nat)>
    requires i < |ws| && n <= |ws|
  {
    set j: nat | i < j < n && Overlap(ws[i], ws[j]) :: (i, j)
  }

  lemma {:induction false} OverlapsOfCount(ws: seq<Window>, i: nat, n: nat)
    requires i < |ws| && n <= |ws|
    ensures |OverlapsOf(ws, i, n)| == |PairsOf(ws, i, n)|
  {
    if n > i + 1 {
      hide Overlap;
      OverlapsOfCount(ws, i, n - 1);
      var last: set<(nat, nat)> := if Overlap(ws[i], ws[n - 1]) then {(i, n - 1)} else {};
      assert PairsOf(ws, i, n) == PairsOf(ws, i, n - 1) + last;
    } else {
      assert PairsOf(ws, i, n) == {};
    }
  }

  lemma {:induction false} OverlapsCount(ws: seq<Window>, m: nat)
    requires m <= |ws|
    ensures |Overlaps(ws, m)| == |Pairs(ws, m)|
  {
    hide OverlapsOf, Overlap, PairsOf;
    if m == 0 {
      assert Pairs(ws, 0) == {};
    } else {
      hide Pairs;
      PairsNext(ws, m);
      OverlapsCount(ws, m - 1);
      OverlapsOfCount(ws, m - 1, |ws|);
    }
  }

  lemma {:induction false} PairsNext(ws: seq<Window>, m: nat)
    requires 0 < m <= |ws|
    ensures Pairs(ws, m) == Pairs(ws, m - 1) + PairsOf(ws, m - 1, |ws|)
    ensures Pairs(ws, m - 1) !! PairsOf(ws, m - 1, |ws|)
  {
    hide Overlap;
  }

  /** Nothing is reported twice: P1 has one report for each overlapping pair of windows, and the others
      one for each position, in order. P5 and P7, whose order is open, have one for each leak and each
      straggler. */
  lemma {:induction false} ReportedOnce(e: Log, final: Content, initial: Content)
    requires Numbered(e)
    ensures |P1Found(e)| == |Pairs(Windows(e), |Windows(e)|)|
    ensures OnceInOrder(P2Found(e)) && OnceInOrder(P6Found(e)) && OnceInOrder(P8Found(e))
    ensures OnceInOrder(P3Found(e, final, initial)) && OnceInOrder(P4Found(e, final, initial))
  {
    hide Windows, Overlaps, Pairs, Collect, RefusedButFinal, AcceptedContents, AtMostHere, P2At, P6At, P8At;
    OverlapsCount(Windows(e), |Windows(e)|);
    EachAtMostHere();
    CollectOnce(e, P2At);
    CollectOnce(e, P6At);
    CollectOnce(e, P8At);
    RefusedOnce(e, final, AcceptedContents(e));
  }

  lemma {:induction false} EachAtMostHere()
    ensures forall l, en :: AtMostHere(P2At(l, en), en.seqNo)
    ensures forall l, en :: AtMostHere(P6At(l, en), en.seqNo)
    ensures forall l, en :: AtMostHere(P8At(l, en), en.seqNo)
  {
    hide Replay, MaxOf, Highest, BasedOn, VersionInForce, LatestBarrier;
  }
}
