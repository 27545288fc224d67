/** The oracle: eight properties decided by replaying a history.

    Each check is a loop that updates local maps and appends to the report. Beside each loop
    stands the function of the history it computes; module CheckerMeaning says what those
    functions mean without any replay. */
module Checkers {
  import opened Types
  import opened Histories

  datatype Property =
    | P1MutualExclusion
    | P2TicketValidity
    | P3NoLostWrite
    | P4NoPhantomWrite
    | P5NoLeakedLock
    | P6Freshness
    | P7Liveness
    | P8Preemptibility

  const ALL: seq<Property> := [P1MutualExclusion, P2TicketValidity, P3NoLostWrite, P4NoPhantomWrite,
                               P5NoLeakedLock, P6Freshness, P7Liveness, P8Preemptibility]

  datatype Violation = Violation(property: Property, at: Option<nat>)

  /** Violations found entry by entry: `at` sees what came before the entry, and the entry. */
  function Collect(e: Log, at: (Log, Entry) -> seq<Violation>): seq<Violation> {
    if e == [] then []
    else Collect(e[..|e| - 1], at) + at(e[..|e| - 1], e[|e| - 1])
  }

  lemma {:induction false} CollectNone(e: Log, at: (Log, Entry) -> seq<Violation>)
    ensures Collect(e[..0], at) == []
  {
  }

  lemma {:induction false} CollectNext(e: Log, at: (Log, Entry) -> seq<Violation>, k: nat)
    requires k < |e|
    ensures Collect(e[..k + 1], at) == Collect(e[..k], at) + at(e[..k], e[k])
  {
    assert e[..k + 1][..k] == e[..k];
  }

  // ---------- P1

  datatype Window = Window(holder: HolderId, start: nat, end: nat)

  /** The attempt of this holder that has been neither accepted nor refused. */
  function PendingAttempt(e: Log, holder: HolderId): Option<nat> {
    if e == [] then None
    else
      var rest, last := e[..|e| - 1], e[|e| - 1];
      match last.event
      case WriteAttempted(h, _, _) =>
        if h == holder then Some(last.seqNo) else PendingAttempt(rest, holder)
      case WriteAccepted(h, _, _, _) => if h == holder then None else PendingAttempt(rest, holder)
      case WriteRefused(h, _, _) => if h == holder then None else PendingAttempt(rest, holder)
      case _ => PendingAttempt(rest, holder)
  }

  function WindowAt(e: Log, en: Entry): seq<Window> {
    match en.event
    case WriteAccepted(h, _, _, _) =>
      (match PendingAttempt(e, h)
       case Some(start) => [Window(h, start, en.seqNo)]
       case None => [])
    case _ => []
  }

  function Windows(e: Log): seq<Window> {
    if e == [] then []
    else Windows(e[..|e| - 1]) + WindowAt(e[..|e| - 1], e[|e| - 1])
  }

  predicate Overlap(a: Window, b: Window) {
    a.holder != b.holder && a.start <= b.end && b.start <= a.end
  }

  /** The overlaps of window i with the windows after it and before n. */
  function OverlapsOf(ws: seq<Window>, i: nat, n: nat): seq<Violation>
    requires i < |ws| && n <= |ws|
  {
    if n <= i + 1 then []
    else
      OverlapsOf(ws, i, n - 1) +
      if Overlap(ws[i], ws[n - 1]) then [Violation(P1MutualExclusion, Some(ws[n - 1].start))] else []
  }

  function Overlaps(ws: seq<Window>, m: nat): seq<Violation>
    requires m <= |ws|
  {
    if m == 0 then [] else Overlaps(ws, m - 1) + OverlapsOf(ws, m - 1, |ws|)
  }

  function P1Found(e: Log): seq<Violation> {
    Overlaps(Windows(e), |Windows(e)|)
  }

  // ---------- P2

  function ReplayStep(held: map<nat, HolderId>, event: Event): map<nat, HolderId> {
    match event
    case TakeGranted(holder, ticket) => held[ticket := holder]
    case GiveBack(_, ticket) => held - {ticket}
    case LeaseExpired(_, ticket) => held - {ticket}
    case Revoked(_) => map[]
    case _ => held
  }

  /** The lock state the history replays to: which holder is on which ticket. */
  function Replay(e: Log): map<nat, HolderId> {
    if e == [] then map[] else ReplayStep(Replay(e[..|e| - 1]), e[|e| - 1].event)
  }

  function Highest(e: Log): Option<nat> {
    if e == [] then None
    else
      var before := Highest(e[..|e| - 1]);
      match e[|e| - 1].event
      case TicketIssued(ticket) =>
        if before.Some? && ticket < before.value then before else Some(ticket)
      case _ => before
  }

  ghost predicate IsMax(s: set<nat>, r: Option<nat>) {
    match r
    case None => s == {}
    case Some(t) => t in s && forall u | u in s :: u <= t
  }

  function Larger(r: Option<nat>, t: nat): Option<nat> {
    match r
    case None => Some(t)
    case Some(u) => Some(if t < u then u else t)
  }

  lemma {:induction false} LargerIsMax(s: set<nat>, r: Option<nat>, t: nat)
    requires IsMax(s, r)
    ensures IsMax(s + {t}, Larger(r, t))
  {
    forall u | u in s + {t}
      ensures u <= Larger(r, t).value
    {
      if u != t {
        assert u in s;
      }
    }
  }

  ghost function MaxOf(s: set<nat>): (r: Option<nat>)
    ensures IsMax(s, r)
  {
    if s == {} then None
    else
      var t :| t in s;
      LargerIsMax(s - {t}, MaxOf(s - {t}), t);
      assert s - {t} + {t} == s;
      Larger(MaxOf(s - {t}), t)
  }

  ghost function P2At(e: Log, en: Entry): seq<Violation> {
    var bad := [Violation(P2TicketValidity, Some(en.seqNo))];
    match en.event
    case TicketIssued(ticket) =>
      if Highest(e).Some? && ticket <= Highest(e).value then bad else []
    case Revoked(barrier) =>
      var revoked := MaxOf(Replay(e).Keys);
      if revoked.Some? && barrier.Some? && barrier.value <= revoked.value then bad else []
    case WriteAccepted(_, ticket, _, _) =>
      if MaxOf(Replay(e).Keys) != Some(ticket) then bad else []
    case _ => []
  }

  ghost function P2Found(e: Log): seq<Violation> {
    Collect(e, P2At)
  }

  // ---------- P3 and P4

  /** The position of the last accepted write. */
  function LastAccepted(e: Log): (r: Option<nat>)
    ensures r.Some? ==> r.value < |e| && e[r.value].event.WriteAccepted?
  {
    if e == [] then None
    else if e[|e| - 1].event.WriteAccepted? then Some(|e| - 1)
    else LastAccepted(e[..|e| - 1])
  }

  function P3Found(e: Log, final: Content, initial: Content): seq<Violation> {
    match LastAccepted(e)
    case Some(i) =>
      if e[i].event.content != final then [Violation(P3NoLostWrite, Some(e[i].seqNo))] else []
    case None =>
      if final != initial then [Violation(P3NoLostWrite, None)] else []
  }

  function AcceptedContents(e: Log): seq<Content> {
    if e == [] then []
    else
      AcceptedContents(e[..|e| - 1]) +
      if e[|e| - 1].event.WriteAccepted? then [e[|e| - 1].event.content] else []
  }

  /** Refused writes whose content is the final one although it was never accepted. */
  function RefusedButFinal(e: Log, final: Content, accepted: seq<Content>): seq<Violation> {
    if e == [] then []
    else
      var last := e[|e| - 1];
      RefusedButFinal(e[..|e| - 1], final, accepted) +
      if last.event.WriteRefused? && last.event.content == final && last.event.content !in accepted
      then [Violation(P4NoPhantomWrite, Some(last.seqNo))]
      else []
  }

  function P4Found(e: Log, final: Content, initial: Content): seq<Violation> {
    var accepted := AcceptedContents(e);
    (if final != initial && final !in accepted then [Violation(P4NoPhantomWrite, None)] else [])
    + RefusedButFinal(e, final, accepted)
  }

  // ---------- P5

  /** The grants not yet matched, with the holder and the position of the grant. */
  function Unmatched(e: Log): map<nat, (HolderId, nat)> {
    if e == [] then map[]
    else
      var before := Unmatched(e[..|e| - 1]);
      var last := e[|e| - 1];
      match last.event
      case TakeGranted(holder, ticket) => before[ticket := (holder, last.seqNo)]
      case GiveBack(_, ticket) => before - {ticket}
      case LeaseExpired(_, ticket) => before - {ticket}
      case Revoked(_) => map[]
      case _ => before
  }

  /** Every key exactly once, in some order. */
  ghost predicate Enumerates<T(!new)>(order: seq<T>, keys: set<T>) {
    && (forall i, j | 0 <= i < j < |order| :: order[i] != order[j])
    && (forall t :: t in order <==> t in keys)
    && (order == [] <==> keys == {})
  }

  /** One violation per unmatched grant, in the order the map was walked. */
  function LeaksIn(order: seq<nat>, unmatched: map<nat, (HolderId, nat)>): seq<Violation>
    requires forall t | t in order :: t in unmatched
  {
    if order == [] then []
    else
      var rest, last := order[..|order| - 1], order[|order| - 1];
      LeaksIn(rest, unmatched) + [Violation(P5NoLeakedLock, Some(unmatched[last].1))]
  }

  ghost predicate Leaks(unmatched: map<nat, (HolderId, nat)>, at: Option<nat>) {
    exists t :: t in unmatched && at == Some(unmatched[t].1)
  }

  ghost predicate ReportsLeaks(found: seq<Violation>, unmatched: map<nat, (HolderId, nat)>) {
    exists order :: Enumerates(order, unmatched.Keys) && found == LeaksIn(order, unmatched)
  }

  // ---------- P6

  /** The version this holder's latest attempt was based on, until that attempt is accepted. */
  function BasedOn(e: Log, holder: HolderId): Option<nat> {
    if e == [] then None
    else
      var rest, last := e[..|e| - 1], e[|e| - 1];
      match last.event
      case WriteAttempted(h, _, expected) =>
        if h == holder then Some(expected) else BasedOn(rest, holder)
      case WriteAccepted(h, _, _, _) => if h == holder then None else BasedOn(rest, holder)
      case _ => BasedOn(rest, holder)
  }

  function VersionInForce(e: Log): nat {
    if e == [] then 0
    else
      match e[|e| - 1].event
      case WriteAccepted(_, _, version, _) => version
      case _ => VersionInForce(e[..|e| - 1])
  }

  function P6At(e: Log, en: Entry): seq<Violation> {
    match en.event
    case WriteAccepted(holder, _, _, _) =>
      if BasedOn(e, holder) != Some(VersionInForce(e))
      then [Violation(P6Freshness, Some(en.seqNo))]
      else []
    case _ => []
  }

  function P6Found(e: Log): seq<Violation> {
    Collect(e, P6At)
  }

  // ---------- P7

  /** The agent an event is about; an issue and a revocation are about none. */
  function HolderOf(event: Event): (r: Option<HolderId>)
    ensures r.None? <==> event.TicketIssued? || event.Revoked?
    ensures r.Some? ==> r.value == event.holder
  {
    match event
    case TicketIssued(_) => None
    case Revoked(_) => None
    case _ => Some(event.holder)
  }

  /** Everyone the log is about, and where they first appear. */
  function Seen(e: Log): map<HolderId, nat> {
    if e == [] then map[]
    else
      var before := Seen(e[..|e| - 1]);
      var last := e[|e| - 1];
      match HolderOf(last.event)
      case Some(h) => if h in before then before else before[h := last.seqNo]
      case None => before
  }

  function Wedged(e: Log): seq<HolderId> {
    if e == [] then []
    else
      Wedged(e[..|e| - 1]) + if e[|e| - 1].event.AgentWedged? then [e[|e| - 1].event.holder] else []
  }

  function DoneWith(e: Log): seq<HolderId> {
    if e == [] then []
    else
      DoneWith(e[..|e| - 1]) + if e[|e| - 1].event.AgentFinished? then [e[|e| - 1].event.holder] else []
  }

  /** Those who were seen and neither finished nor wedged. */
  function Unfinished(e: Log): map<HolderId, nat> {
    map h | h in Seen(e) && h !in Wedged(e) && h !in DoneWith(e) :: Seen(e)[h]
  }

  /** One violation per unfinished agent, in the order the map was walked. */
  function StragglersIn(order: seq<HolderId>, seen: map<HolderId, nat>): seq<Violation>
    requires forall h | h in order :: h in seen
  {
    if order == [] then []
    else
      var rest, last := order[..|order| - 1], order[|order| - 1];
      StragglersIn(rest, seen) + [Violation(P7Liveness, Some(seen[last]))]
  }

  ghost predicate ReportsStragglers(found: seq<Violation>, unfinished: map<HolderId, nat>) {
    exists order :: Enumerates(order, unfinished.Keys) && found == StragglersIn(order, unfinished)
  }

  // ---------- P8

  /** The barrier of the latest revocation; a revocation may carry none. */
  function LatestBarrier(e: Log): Option<nat> {
    if e == [] then None
    else
      match e[|e| - 1].event
      case Revoked(barrier) => barrier
      case _ => LatestBarrier(e[..|e| - 1])
  }

  function P8At(e: Log, en: Entry): seq<Violation> {
    match en.event
    case WriteAccepted(_, ticket, _, _) =>
      (match LatestBarrier(e)
       case Some(b) => if ticket < b then [Violation(P8Preemptibility, Some(en.seqNo))] else []
       case None => [])
    case _ => []
  }

  function P8Found(e: Log): seq<Violation> {
    Collect(e, P8At)
  }

  // ---------- The verdict

  ghost predicate Passes(p: Property, e: Log, final: Content, initial: Content) {
    match p
    case P1MutualExclusion => P1Found(e) == []
    case P2TicketValidity => P2Found(e) == []
    case P3NoLostWrite => P3Found(e, final, initial) == []
    case P4NoPhantomWrite => P4Found(e, final, initial) == []
    case P5NoLeakedLock => Unmatched(e) == map[]
    case P6Freshness => P6Found(e) == []
    case P7Liveness => Unfinished(e) == map[]
    case P8Preemptibility => P8Found(e) == []
  }

  /** The report should hold this violation: the functions above find it or, where the order of the
      reports is left open, there is a leak or a straggler at this position. */
  ghost predicate Reported(v: Violation, e: Log, final: Content, initial: Content) {
    match v.property
    case P1MutualExclusion => v in P1Found(e)
    case P2TicketValidity => v in P2Found(e)
    case P3NoLostWrite => v in P3Found(e, final, initial)
    case P4NoPhantomWrite => v in P4Found(e, final, initial)
    case P5NoLeakedLock => Leaks(Unmatched(e), v.at)
    case P6Freshness => v in P6Found(e)
    case P7Liveness => exists h :: h in Unfinished(e) && v.at == Some(Unfinished(e)[h])
    case P8Preemptibility => v in P8Found(e)
  }

  /** Only violations of this property. */
  ghost predicate Only(p: Property, found: seq<Violation>) {
    forall v | v in found :: v.property == p
  }

  predicate Mentions(found: seq<Violation>, p: Property) {
    exists i | 0 <= i < |found| :: found[i].property == p
  }

  lemma {:induction false} CollectOnly(p: Property, e: Log, at: (Log, Entry) -> seq<Violation>)
    requires forall l, en :: Only(p, at(l, en))
    ensures Only(p, Collect(e, at))
  {
    if e == [] {
    } else {
      CollectOnly(p, e[..|e| - 1], at);
    }
  }

  lemma {:induction false} OnlyBoth(p: Property, found: seq<Violation>, more: seq<Violation>)
    requires Only(p, found) && Only(p, more)
    ensures Only(p, found + more)
  {
  }

  lemma {:induction false} OverlapsOfOnly(ws: seq<Window>, i: nat, n: nat)
    requires i < |ws| && n <= |ws|
    ensures Only(P1MutualExclusion, OverlapsOf(ws, i, n))
  {
    if n > i + 1 {
      OverlapsOfOnly(ws, i, n - 1);
    }
  }

  lemma {:induction false} OverlapsOnly(ws: seq<Window>, m: nat)
    requires m <= |ws|
    ensures Only(P1MutualExclusion, Overlaps(ws, m))
  {
    hide OverlapsOf;
    if m == 0 {
    } else {
      hide Only;
      OverlapsOnly(ws, m - 1);
      OverlapsOfOnly(ws, m - 1, |ws|);
      OnlyBoth(P1MutualExclusion, Overlaps(ws, m - 1), OverlapsOf(ws, m - 1, |ws|));
    }
  }

  lemma {:induction false} LeaksInOnly(order: seq<nat>, unmatched: map<nat, (HolderId, nat)>)
    requires forall t | t in order :: t in unmatched
    ensures |LeaksIn(order, unmatched)| == |order|
    ensures forall v :: v in LeaksIn(order, unmatched) <==>
              v.property == P5NoLeakedLock && exists t :: t in order && v.at == Some(unmatched[t].1)
  {
    if order == [] {
    } else {
      LeaksInOnly(order[..|order| - 1], unmatched);
      assert order == order[..|order| - 1] + [order[|order| - 1]];
    }
  }

  lemma {:induction false} StragglersInOnly(order: seq<HolderId>, seen: map<HolderId, nat>)
    requires forall h | h in order :: h in seen
    ensures |StragglersIn(order, seen)| == |order|
    ensures forall v :: v in StragglersIn(order, seen) <==>
              v.property == P7Liveness && exists h :: h in order && v.at == Some(seen[h])
  {
    if order == [] {
    } else {
      StragglersInOnly(order[..|order| - 1], seen);
      assert order == order[..|order| - 1] + [order[|order| - 1]];
    }
  }

  lemma {:induction false} RefusedButFinalOnly(e: Log, final: Content, accepted: seq<Content>)
    ensures Only(P4NoPhantomWrite, RefusedButFinal(e, final, accepted))
  {
    if e == [] {
    } else {
      RefusedButFinalOnly(e[..|e| - 1], final, accepted);
    }
  }

  class Report {
    const checked: seq<Property>
    var violations: seq<Violation>

    constructor (checked: seq<Property>)
      ensures this.checked == checked && violations == []
    {
      this.checked := checked;
      violations := [];
    }

    predicate Passed()
      reads this
    {
      violations == []
    }

    predicate Violated(p: Property)
      reads this
    {
      Mentions(violations, p)
    }

    method Fail(property: Property, at: Option<nat>)
      modifies this`violations
      ensures violations == old(violations) + [Violation(property, at)]
    {
      violations := violations + [Violation(property, at)];
    }
  }

  method P1(e: Log, r: Report)
    modifies r`violations
    ensures r.violations == old(r.violations) + P1Found(e)
  {
    hide Overlaps, OverlapsOf, Overlap;
    var open: map<HolderId, nat> := map[];
    var windows: seq<Window> := [];
    var k := 0;
    while k < |e|
      invariant 0 <= k <= |e|
      invariant forall h :: h in open <==> PendingAttempt(e[..k], h).Some?
      invariant forall h | h in open :: PendingAttempt(e[..k], h) == Some(open[h])
      invariant windows == Windows(e[..k])
    {
      var en := e[k];
      assert e[..k + 1][..k] == e[..k];
      match en.event {
        case WriteAttempted(holder, _, _) =>
          open := open[holder := en.seqNo];
        case WriteAccepted(holder, _, _, _) =>
          if holder in open {
            windows := windows + [Window(holder, open[holder], en.seqNo)];
            open := open - {holder};
          }
        case WriteRefused(holder, _, _) =>
          open := open - {holder};
        case _ =>
      }
      k := k + 1;
    }
    assert e[..k] == e;

    ReportOverlaps(windows, r);
  }

  method ReportOverlaps(windows: seq<Window>, r: Report)
    modifies r`violations
    ensures r.violations == old(r.violations) + Overlaps(windows, |windows|)
  {
    var i := 0;
    while i < |windows|
      invariant 0 <= i <= |windows|
      invariant r.violations == old(r.violations) + Overlaps(windows, i)
    {
      ghost var before := r.violations;
      var j := i + 1;
      while j < |windows|
        invariant i + 1 <= j <= |windows|
        invariant r.violations == before + OverlapsOf(windows, i, j)
      {
        if Overlap(windows[i], windows[j]) {
          r.Fail(P1MutualExclusion, Some(windows[j].start));
        }
        j := j + 1;
      }
      i := i + 1;
    }
  }

  /** The largest key, by looking at every key once. */
  method LargestKey(held: map<nat, HolderId>) returns (r: Option<nat>)
    ensures r == MaxOf(held.Keys)
  {
    var left := held.Keys;
    r := None;
    while left != {}
      invariant left <= held.Keys
      invariant IsMax(held.Keys - left, r)
      decreases left
    {
      var t :| t in left;
      LargerIsMax(held.Keys - left, r, t);
      assert held.Keys - left + {t} == held.Keys - (left - {t});
      left := left - {t};
      r := Larger(r, t);
    }
    assert held.Keys - left == held.Keys;
  }

  method P2(e: Log, r: Report)
    modifies r`violations
    ensures r.violations == old(r.violations) + P2Found(e)
  {
    hide MaxOf, IsMax, Collect;
    CollectNone(e, P2At);
    var highest: Option<nat> := None;
    var held: map<nat, HolderId> := map[];
    var k := 0;
    while k < |e|
      invariant 0 <= k <= |e|
      invariant highest == Highest(e[..k])
      invariant held == Replay(e[..k])
      invariant r.violations == old(r.violations) + Collect(e[..k], P2At)
    {
      var en := e[k];
      assert e[..k + 1][..k] == e[..k];
      CollectNext(e, P2At, k);
      match en.event {
        case TicketIssued(ticket) =>
          if highest.Some? && ticket <= highest.value {
            r.Fail(P2TicketValidity, Some(en.seqNo));
          }
          highest := if highest.Some? && ticket < highest.value then highest else Some(ticket);
        case TakeGranted(holder, ticket) =>
          held := held[ticket := holder];
        case GiveBack(_, ticket) =>
          held := held - {ticket};
        case LeaseExpired(_, ticket) =>
          held := held - {ticket};
        case Revoked(barrier) =>
          var revoked := LargestKey(held);
          held := map[];
          if revoked.Some? && barrier.Some? && barrier.value <= revoked.value {
            r.Fail(P2TicketValidity, Some(en.seqNo));
          }
        case WriteAccepted(_, ticket, _, _) =>
          var current := LargestKey(held);
          if current != Some(ticket) {
            r.Fail(P2TicketValidity, Some(en.seqNo));
          }
        case _ =>
      }
      k := k + 1;
    }
    assert e[..k] == e;
  }

  method FindLastAccepted(e: Log) returns (r: Option<nat>)
    ensures r == LastAccepted(e)
  {
    var k := |e|;
    assert e[..k] == e;
    while k > 0
      invariant 0 <= k <= |e|
      invariant LastAccepted(e) == LastAccepted(e[..k])
    {
      assert e[..k][..k - 1] == e[..k - 1];
      if e[k - 1].event.WriteAccepted? {
        return Some(k - 1);
      }
      k := k - 1;
    }
    return None;
  }

  method P3(e: Log, r: Report, final: Content, initial: Content)
    modifies r`violations
    ensures r.violations == old(r.violations) + P3Found(e, final, initial)
  {
    var last := FindLastAccepted(e);
    match last {
      case Some(i) =>
        if e[i].event.content != final {
          r.Fail(P3NoLostWrite, Some(e[i].seqNo));
        }
      case None =>
        if final != initial {
          r.Fail(P3NoLostWrite, None);
        }
    }
  }

  method P4(e: Log, r: Report, final: Content, initial: Content)
    modifies r`violations
    ensures r.violations == old(r.violations) + P4Found(e, final, initial)
  {
    var accepted: seq<Content> := [];
    var k := 0;
    while k < |e|
      invariant 0 <= k <= |e|
      invariant accepted == AcceptedContents(e[..k])
    {
      assert e[..k + 1][..k] == e[..k];
      if e[k].event.WriteAccepted? {
        accepted := accepted + [e[k].event.content];
      }
      k := k + 1;
    }
    assert e[..k] == e;
    if final != initial && final !in accepted {
      r.Fail(P4NoPhantomWrite, None);
    }
    ghost var before := r.violations;
    k := 0;
    while k < |e|
      invariant 0 <= k <= |e|
      invariant r.violations == before + RefusedButFinal(e[..k], final, accepted)
    {
      assert e[..k + 1][..k] == e[..k];
      if e[k].event.WriteRefused? && e[k].event.content == final && e[k].event.content !in accepted {
        r.Fail(P4NoPhantomWrite, Some(e[k].seqNo));
      }
      k := k + 1;
    }
    assert e[..k] == e;
  }

  method P5(e: Log, r: Report)
    modifies r`violations
    ensures exists found :: ReportsLeaks(found, Unmatched(e)) && r.violations == old(r.violations) + found
  {
    var held: map<nat, (HolderId, nat)> := map[];
    var k := 0;
    while k < |e|
      invariant 0 <= k <= |e|
      invariant held == Unmatched(e[..k])
    {
      assert e[..k + 1][..k] == e[..k];
      match e[k].event {
        case TakeGranted(holder, ticket) => held := held[ticket := (holder, e[k].seqNo)];
        case GiveBack(_, ticket) => held := held - {ticket};
        case LeaseExpired(_, ticket) => held := held - {ticket};
        case Revoked(_) => held := map[];
        case _ =>
      }
      k := k + 1;
    }
    assert e[..k] == e;

    ReportUnmatched(held, r);
  }

  /** The keys in whatever order the map yields them. */
  method InAnyOrder<T(==,!new)>(keys: set<T>) returns (order: seq<T>)
    ensures Enumerates(order, keys)
  {
    order := [];
    var left := keys;
    while left != {}
      invariant left <= keys
      invariant Enumerates(order, keys - left)
      decreases left
    {
      var t :| t in left;
      assert keys - (left - {t}) == keys - left + {t};
      OneMore(order, keys - left, t);
      left := left - {t};
      order := order + [t];
    }
    assert keys - left == keys;
  }

  lemma {:induction false} OneMore<T(!new)>(order: seq<T>, keys: set<T>, t: T)
    requires Enumerates(order, keys) && t !in keys
    ensures Enumerates(order + [t], keys + {t})
  {
  }

  method ReportUnmatched(held: map<nat, (HolderId, nat)>, r: Report)
    modifies r`violations
    ensures exists found :: ReportsLeaks(found, held) && r.violations == old(r.violations) + found
  {
    var order := InAnyOrder(held.Keys);
    var k := 0;
    while k < |order|
      invariant 0 <= k <= |order|
      invariant forall t | t in order :: t in held
      invariant r.violations == old(r.violations) + LeaksIn(order[..k], held)
    {
      assert order[..k + 1][..k] == order[..k];
      r.Fail(P5NoLeakedLock, Some(held[order[k]].1));
      k := k + 1;
    }
    assert order[..k] == order;
    assert ReportsLeaks(LeaksIn(order, held), held);
  }

  method P6(e: Log, r: Report)
    modifies r`violations
    ensures r.violations == old(r.violations) + P6Found(e)
  {
    var version := 0;
    var expected: map<HolderId, nat> := map[];
    var k := 0;
    while k < |e|
      invariant 0 <= k <= |e|
      invariant version == VersionInForce(e[..k])
      invariant forall h :: h in expected <==> BasedOn(e[..k], h).Some?
      invariant forall h | h in expected :: BasedOn(e[..k], h) == Some(expected[h])
      invariant r.violations == old(r.violations) + Collect(e[..k], P6At)
    {
      var en := e[k];
      assert e[..k + 1][..k] == e[..k];
      match en.event {
        case WriteAttempted(holder, _, v) =>
          expected := expected[holder := v];
        case WriteAccepted(holder, _, got, _) =>
          if holder !in expected || expected[holder] != version {
            r.Fail(P6Freshness, Some(en.seqNo));
          }
          expected := expected - {holder};
          version := got;
        case _ =>
      }
      k := k + 1;
    }
    assert e[..k] == e;
  }

  method P7(e: Log, r: Report)
    modifies r`violations
    ensures exists found :: ReportsStragglers(found, Unfinished(e)) && r.violations == old(r.violations) + found
  {
    var seen: map<HolderId, nat> := map[];
    var wedged, finished: seq<HolderId> := [], [];
    var k := 0;
    while k < |e|
      invariant 0 <= k <= |e|
      invariant seen == Seen(e[..k]) && wedged == Wedged(e[..k]) && finished == DoneWith(e[..k])
    {
      var en := e[k];
      assert e[..k + 1][..k] == e[..k];
      var about := HolderOf(en.event);
      if about.Some? && about.value !in seen {
        seen := seen[about.value := en.seqNo];
      }
      match en.event {
        case AgentWedged(holder) => wedged := wedged + [holder];
        case AgentFinished(holder) => finished := finished + [holder];
        case _ =>
      }
      k := k + 1;
    }
    assert e[..k] == e;
    var order := InAnyOrder(seen.Keys);
    ReportStragglers(order, seen, wedged, finished, Unfinished(e), r);
  }

  method ReportStragglers(
      order: seq<HolderId>, seen: map<HolderId, nat>, wedged: seq<HolderId>, finished: seq<HolderId>,
      ghost unfinished: map<HolderId, nat>, r: Report)
    requires Enumerates(order, seen.Keys)
    requires unfinished == map h | h in seen && h !in wedged && h !in finished :: seen[h]
    modifies r`violations
    ensures exists found :: ReportsStragglers(found, unfinished) && r.violations == old(r.violations) + found
  {
    FilterMeans(order, unfinished.Keys);
    FilterEnumerates(order, seen.Keys, unfinished.Keys);
    var k := 0;
    while k < |order|
      invariant 0 <= k <= |order|
      invariant r.violations == old(r.violations) + StragglersUpTo(order, k, unfinished)
    {
      if order[k] !in wedged && order[k] !in finished {
        r.Fail(P7Liveness, Some(seen[order[k]]));
      }
      StragglersNext(order, k, unfinished);
      k := k + 1;
    }
    assert order[..k] == order;
    assert ReportsStragglers(StragglersIn(Filter(order, unfinished.Keys), unfinished), unfinished);
  }

  /** The elements among the keys, in order. */
  ghost function Filter<T(!new)>(order: seq<T>, keys: set<T>): seq<T> {
    if order == [] then []
    else
      Filter(order[..|order| - 1], keys) + if order[|order| - 1] in keys then [order[|order| - 1]] else []
  }

  lemma {:induction false} FilterMeans<T(!new)>(order: seq<T>, keys: set<T>)
    ensures forall x :: x in Filter(order, keys) <==> x in order && x in keys
  {
    if order == [] {
    } else {
      FilterMeans(order[..|order| - 1], keys);
      assert order == order[..|order| - 1] + [order[|order| - 1]];
    }
  }

  lemma {:induction false} FilterOnce<T(!new)>(order: seq<T>, keys: set<T>)
    requires forall i, j | 0 <= i < j < |order| :: order[i] != order[j]
    ensures forall i, j | 0 <= i < j < |Filter(order, keys)| :: Filter(order, keys)[i] != Filter(order, keys)[j]
  {
    if order == [] {
    } else {
      var rest := order[..|order| - 1];
      FilterOnce(rest, keys);
      FilterMeans(rest, keys);
      assert order[|order| - 1] !in rest;
    }
  }

  lemma {:induction false} FilterEnumerates<T(!new)>(order: seq<T>, all: set<T>, keys: set<T>)
    requires Enumerates(order, all) && keys <= all
    ensures Enumerates(Filter(order, keys), keys)
  {
    FilterMeans(order, keys);
    FilterOnce(order, keys);
    var kept := Filter(order, keys);
    assert kept == [] || kept[0] in kept;
    assert keys == {} || exists x :: x in keys;
  }

  ghost function StragglersUpTo(order: seq<HolderId>, k: nat, unfinished: map<HolderId, nat>): seq<Violation>
    requires k <= |order|
  {
    FilterMeans(order[..k], unfinished.Keys);
    StragglersIn(Filter(order[..k], unfinished.Keys), unfinished)
  }

  lemma {:induction false} StragglersNext(order: seq<HolderId>, k: nat, unfinished: map<HolderId, nat>)
    requires k < |order|
    ensures StragglersUpTo(order, k + 1, unfinished) ==
            StragglersUpTo(order, k, unfinished) +
            if order[k] in unfinished then [Violation(P7Liveness, Some(unfinished[order[k]]))] else []
  {
    assert order[..k + 1][..k] == order[..k];
    var before, after := Filter(order[..k], unfinished.Keys), Filter(order[..k + 1], unfinished.Keys);
    FilterMeans(order[..k], unfinished.Keys);
    FilterMeans(order[..k + 1], unfinished.Keys);
    if order[k] in unfinished {
      assert after == before + [order[k]] && after[..|after| - 1] == before && after[|after| - 1] == order[k];
      assert StragglersIn(after, unfinished) ==
             StragglersIn(before, unfinished) + [Violation(P7Liveness, Some(unfinished[order[k]]))];
    } else {
      assert after == before;
    }
  }

  method P8(e: Log, r: Report)
    modifies r`violations
    ensures r.violations == old(r.violations) + P8Found(e)
  {
    var revokedAt: Option<Option<nat>> := None;
    var k := 0;
    while k < |e|
      invariant 0 <= k <= |e|
      invariant LatestBarrier(e[..k]) == if revokedAt.Some? then revokedAt.value else None
      invariant r.violations == old(r.violations) + Collect(e[..k], P8At)
    {
      var en := e[k];
      assert e[..k + 1][..k] == e[..k];
      match en.event {
        case Revoked(barrier) =>
          revokedAt := Some(barrier);
        case WriteAccepted(_, ticket, _, _) =>
          match revokedAt {
            case Some(Some(b)) =>
              if ticket < b {
                r.Fail(P8Preemptibility, Some(en.seqNo));
              }
            case _ =>
          }
        case _ =>
      }
      k := k + 1;
    }
    assert e[..k] == e;
  }

  /** Every requested property gets its verdict, and nothing else is reported. */
  method Check(history: History, props: seq<Property>, final: Content, initial: Content)
    returns (r: Report)
    ensures fresh(r) && r.checked == props
    ensures forall v :: v in r.violations <==> v.property in props && Reported(v, history.entries, final, initial)
    ensures forall p :: r.Violated(p) <==> p in props && !Passes(p, history.entries, final, initial)
    ensures r.Passed() <==> forall p | p in props :: Passes(p, history.entries, final, initial)
  {
    var e := history.entries;
    r := new Report(props);
    var k := 0;
    while k < |props|
      invariant 0 <= k <= |props|
      invariant forall p :: r.Violated(p) <==> p in props[..k] && !Passes(p, e, final, initial)
      invariant forall v :: v in r.violations <==> v.property in props[..k] && Reported(v, e, final, initial)
    {
      CheckOne(e, r, props[k], final, initial);
      assert props[..k + 1] == props[..k] + [props[k]];
      k := k + 1;
    }
    assert props[..k] == props;
    if !r.Passed() {
      assert r.Violated(r.violations[0].property);
    }
  }

  method CheckOne(e: Log, r: Report, p: Property, final: Content, initial: Content)
    modifies r`violations
    ensures forall v :: v in r.violations <==>
              v in old(r.violations) || (v.property == p && Reported(v, e, final, initial))
    ensures forall q :: r.Violated(q) <==> old(r.Violated(q)) || (q == p && !Passes(p, e, final, initial))
  {
    ghost var found: seq<Violation>;
    match p {
      case P1MutualExclusion =>
        P1(e, r);
        found := P1Found(e);
        OverlapsOnly(Windows(e), |Windows(e)|);
      case P2TicketValidity =>
        P2(e, r);
        found := P2Found(e);
        CollectOnly(p, e, P2At);
      case P3NoLostWrite =>
        P3(e, r, final, initial);
        found := P3Found(e, final, initial);
      case P4NoPhantomWrite =>
        P4(e, r, final, initial);
        found := P4Found(e, final, initial);
        RefusedButFinalOnly(e, final, AcceptedContents(e));
      case P5NoLeakedLock =>
        P5(e, r);
        found :| ReportsLeaks(found, Unmatched(e)) && r.violations == old(r.violations) + found;
        ghost var order :| Enumerates(order, Unmatched(e).Keys) && found == LeaksIn(order, Unmatched(e));
        LeaksInOnly(order, Unmatched(e));
      case P6Freshness =>
        P6(e, r);
        found := P6Found(e);
        CollectOnly(p, e, P6At);
      case P7Liveness =>
        P7(e, r);
        found :| ReportsStragglers(found, Unfinished(e)) && r.violations == old(r.violations) + found;
        ghost var order :| Enumerates(order, Unfinished(e).Keys) && found == StragglersIn(order, Unfinished(e));
        StragglersInOnly(order, Unfinished(e));
      case P8Preemptibility =>
        P8(e, r);
        found := P8Found(e);
        CollectOnly(p, e, P8At);
    }
    assert Only(p, found);
    assert (found == []) == Passes(p, e, final, initial);
    assert forall v :: v in found <==> v.property == p && Reported(v, e, final, initial);
    hide Reported, Passes;
    ViolatedAfter(old(r.violations), found, p);
  }

  lemma {:induction false} ViolatedAfter(before: seq<Violation>, found: seq<Violation>, p: Property)
    requires Only(p, found)
    ensures forall q :: Mentions(before + found, q) <==> Mentions(before, q) || (q == p && found != [])
  {
    var all := before + found;
    forall q
      ensures Mentions(all, q) <==> Mentions(before, q) || (q == p && found != [])
    {
      if Mentions(before, q) {
        var i :| 0 <= i < |before| && before[i].property == q;
        assert all[i].property == q;
      }
      if q == p && found != [] {
        assert all[|before|] == found[0] && found[0] in found;
      }
      if Mentions(all, q) {
        var i :| 0 <= i < |all| && all[i].property == q;
        if i >= |before| {
          assert all[i] == found[i - |before|] && all[i] in found;
        } else {
          assert before[i].property == q;
        }
      }
    }
  }
}
