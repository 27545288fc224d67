/** Under every fault, the clock, the ticket counter, the version and the log only grow. */
module Growth {
  import opened Types
  import opened Histories
  import opened Locks
  import opened Harnesses
  import opened Runs
  import opened ServiceCalls

  /** Nothing went back, and what was logged was logged in between, in the order of the clock. */
  ghost predicate Grows(s: Service, s': Service) {
    && s.now <= s'.now
    && s.nextTicket <= s'.nextTicket
    && s.version <= s'.version
    && s.log <= s'.log
    && (forall i | |s.log| <= i < |s'.log| :: s.now <= s'.log[i].at <= s'.now)
    && forall i, j | |s.log| <= i < j < |s'.log| :: s'.log[i].at <= s'.log[j].at
  }

  /** The same log, with the clock, the counter and the version no lower. */
  lemma {:induction false} StillGrows(s: Service, s': Service)
    requires s'.log == s.log && s.now <= s'.now && s.nextTicket <= s'.nextTicket && s.version <= s'.version
    ensures Grows(s, s')
  {
  }

  lemma {:induction false} SweptGrows(s: Service)
    ensures Grows(s, Swept(s))
  {
    AppendAllContents(s.log, s.now, Expiries(Lapsed(s.held, s.now)));
  }

  lemma {:induction false} CallGrows(c: Setup, s: Service, call: Call)
    ensures Grows(s, Called(c, s, call))
  {
    SweptGrows(s);
    AppendAllContents(s.log, s.now, Expiries(s.held));
    hide Swept, FirstOn, Without, Expiries, AppendAll;
  }

  lemma {:induction false} ReachesGrows(c: Setup, s: Service, s': Service)
    requires Reaches(c, s, s')
    ensures Grows(s, s')
  {
    StillGrows(s, s);
    hide Grows, Reaches, Called;
    forall x, call | Grows(s, x)
      ensures Grows(s, Called(c, x, call))
    {
      CallGrows(c, x, call);
    }
    ReachesKeeps(c, s, s', ANYTHING, x => Grows(s, x));
  }

  lemma {:induction false} StepGrows(c: Setup, rs: RunState, op: Op)
    ensures Grows(rs.world.svc, Step(c, rs, op).world.svc)
  {
    hide Grows, Reaches, Step;
    StepReaches(c, rs, op);
    ReachesGrows(c, rs.world.svc, Step(c, rs, op).world.svc);
  }

  /** Whatever happens next, under every fault, time, tickets, versions and the log only grow. */
  lemma {:induction false} RunGrows(c: Setup, rs: RunState, ops: seq<Op>)
    ensures Grows(rs.world.svc, Run(c, rs, ops).world.svc)
  {
    hide Grows, Reaches, Run;
    RunReaches(c, rs, ops);
    ReachesGrows(c, rs.world.svc, Run(c, rs, ops).world.svc);
  }

  lemma {:induction false} StepCommits(c: Setup, rs: RunState, op: Op)
    ensures rs.commits <= Step(c, rs, op).commits
  {
    hide ReadDone, Progressed, Applied, Abandoned, HoldForWrite, Submitted, ForceReleased, ForceExpired, Swept;
  }

  lemma {:induction false} RunCommits(c: Setup, rs: RunState, ops: seq<Op>)
    ensures rs.commits <= Run(c, rs, ops).commits
  {
    if ops == [] {
    } else {
      hide Step;
      RunCommits(c, rs, ops[..|ops| - 1]);
      StepCommits(c, Run(c, rs, ops[..|ops| - 1]), ops[|ops| - 1]);
    }
  }
}
