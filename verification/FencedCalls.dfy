/** Processes that hold leases: at most one of them is ever let through to the Worker for a given request. */
module FencedCalls {
  import opened Wrappers
  import opened Ledger
  import opened Runs
  import opened Protocol
  import opened Dispatches
  import opened Fencing

  /** The request a process still wants to dispatch or has not yet confirmed. */
  function Pending(doing: Activity, cleared: seq<Clearance>): Option<RequestId> {
    match doing
    case SawAuthorized(r) => Some(r)
    case Reserving(r, _) => Some(r)
    case Cleared(ticket) => if ticket < |cleared| then Some(cleared[ticket].request) else None
    case _ => None
  }

  ghost predicate AllLeased(agents: seq<Agent>) {
    forall i :: 0 <= i < |agents| ==> agents[i].lease.Some?
  }

  predicate TicketIsOwn(cleared: seq<Clearance>, agent: Agent) {
    agent.doing.Cleared? ==>
      agent.doing.ticket < |cleared| && cleared[agent.doing.ticket].lease == agent.lease
  }

  /** A passed ticket carries a lease no newer than the row. */
  predicate PassedUnder(cleared: seq<Clearance>, ticket: nat, epoch: nat) {
    ticket < |cleared| && cleared[ticket].lease.Some? && cleared[ticket].lease.value.epoch <= epoch
  }

  /** A process still pending on the request of a passed ticket has an older lease than the one that passed. */
  predicate Outdated(cleared: seq<Clearance>, agent: Agent, ticket: nat) {
    ticket < |cleared| && agent.lease.Some? && cleared[ticket].lease.Some?
    && Pending(agent.doing, cleared) == Some(cleared[ticket].request) ==>
      agent.lease.value.epoch < cleared[ticket].lease.value.epoch
  }

  ghost predicate PendingOutdated(s: State) {
    forall t, i :: t in s.past.passed && 0 <= i < |s.agents| ==> Outdated(s.past.cleared, s.agents[i], t)
  }

  predicate SameRequest(cleared: seq<Clearance>, a: nat, b: nat) {
    a < |cleared| && b < |cleared| && cleared[a].request == cleared[b].request
  }

  ghost predicate PassedOnce(past: History) {
    forall a, b :: 0 <= a < b < |past.passed| ==> !SameRequest(past.cleared, past.passed[a], past.passed[b])
  }

  ghost predicate PassedInv(s: State) {
    && AllLeased(s.agents)
    && (forall t :: t in s.past.passed ==> PassedUnder(s.past.cleared, t, Epoch(s.row)))
    && PendingOutdated(s) && PassedOnce(s.past)
    && (forall i :: 0 <= i < |s.agents| ==> TicketIsOwn(s.past.cleared, s.agents[i]))
  }

  ghost predicate NotPassed(past: History, r: RequestId) {
    forall t :: t in past.passed && t < |past.cleared| ==> past.cleared[t].request != r
  }

  /** How one process moves when nobody passes: it keeps what it pends on, drops it, or picks up a request nobody passed with. */
  ghost predicate AgentCalm(past: History, past': History, agent: Agent, agent': Agent) {
    var before, after := Pending(agent.doing, past.cleared), Pending(agent'.doing, past'.cleared);
    && agent'.lease == agent.lease && TicketIsOwn(past'.cleared, agent')
    && (after == before || after.None? || NotPassed(past, after.value))
  }

  ghost predicate Calm(s: State, s': State) {
    && s'.past.passed == s.past.passed && s.past.cleared <= s'.past.cleared
    && Epoch(s.row) <= Epoch(s'.row) && |s.agents| <= |s'.agents|
    && (forall i :: 0 <= i < |s.agents| ==> AgentCalm(s.past, s'.past, s.agents[i], s'.agents[i]))
    && (forall i :: |s.agents| <= i < |s'.agents| ==> s'.agents[i].lease.Some? && s'.agents[i].doing.Idle?)
  }

  lemma CalmKeepsPassed(s: State, s': State)
    requires PassedInv(s) && Calm(s, s')
    ensures PassedInv(s')
  {
    forall i | 0 <= i < |s'.agents|
      ensures s'.agents[i].lease.Some? && TicketIsOwn(s'.past.cleared, s'.agents[i])
      ensures forall t :: t in s'.past.passed ==> Outdated(s'.past.cleared, s'.agents[i], t)
    {
      if i < |s.agents| {
        assert AgentCalm(s.past, s'.past, s.agents[i], s'.agents[i]);
        forall t | t in s'.past.passed ensures Outdated(s'.past.cleared, s'.agents[i], t) {
          assert PassedUnder(s.past.cleared, t, Epoch(s.row));
          assert Outdated(s.past.cleared, s.agents[i], t);
          assert s'.past.cleared[t] == s.past.cleared[t];
        }
      }
    }
    CalmKeepsRequests(s, s');
  }

  lemma CalmKeepsRequests(s: State, s': State)
    requires PassedInv(s) && s'.past.passed == s.past.passed && s.past.cleared <= s'.past.cleared
    requires Epoch(s.row) <= Epoch(s'.row)
    ensures PassedOnce(s'.past)
    ensures forall t :: t in s'.past.passed ==> PassedUnder(s'.past.cleared, t, Epoch(s'.row))
  {
    forall t | t in s'.past.passed ensures PassedUnder(s'.past.cleared, t, Epoch(s'.row)) {
      assert PassedUnder(s.past.cleared, t, Epoch(s.row));
      assert s'.past.cleared[t] == s.past.cleared[t];
    }
    forall a, b | 0 <= a < b < |s'.past.passed|
      ensures !SameRequest(s'.past.cleared, s'.past.passed[a], s'.past.passed[b])
    {
      var ta, tb := s.past.passed[a], s.past.passed[b];
      assert ta in s.past.passed && tb in s.past.passed;
      assert PassedUnder(s.past.cleared, ta, Epoch(s.row)) && PassedUnder(s.past.cleared, tb, Epoch(s.row));
      assert !SameRequest(s.past.cleared, ta, tb);
      assert s'.past.cleared[ta] == s.past.cleared[ta] && s'.past.cleared[tb] == s.past.cleared[tb];
    }
  }

  /** The lease check lets a process through only while its epoch is the row's, which no outdated process has. */
  lemma LeaseCheckKeepsPassed(s: State, i: nat, s': State)
    requires PassedInv(s) && EpochInv(s) && TicketsInv(s) && s' == DoCheckLease(s, i)
    ensures PassedInv(s')
  {
    if s'.past.passed == s.past.passed {
      assert Calm(s, s');
      CalmKeepsPassed(s, s');
    } else {
      var ticket := s.agents[i].doing.ticket;
      assert TicketIsOwn(s.past.cleared, s.agents[i]);
      NobodyPassedBefore(s, i, ticket);
      OthersAreOlder(s, i, s', ticket);
      assert s'.past.passed == s.past.passed + [ticket];
      forall a, b | 0 <= a < b < |s'.past.passed|
        ensures !SameRequest(s'.past.cleared, s'.past.passed[a], s'.past.passed[b])
      {
        if b == |s.past.passed| {
          assert s.past.passed[a] in s.past.passed;
        }
      }
    }
  }

  lemma NobodyPassedBefore(s: State, i: nat, ticket: nat)
    requires PassedInv(s) && Acts(s, i) && s.agents[i].doing == Cleared(ticket)
    requires s.agents[i].lease.Some? && s.agents[i].lease.value.epoch == Epoch(s.row)
    ensures ticket < |s.past.cleared|
    ensures forall t :: t in s.past.passed ==> !SameRequest(s.past.cleared, t, ticket)
  {
    assert TicketIsOwn(s.past.cleared, s.agents[i]);
    forall t | t in s.past.passed ensures !SameRequest(s.past.cleared, t, ticket) {
      assert PassedUnder(s.past.cleared, t, Epoch(s.row));
      assert Outdated(s.past.cleared, s.agents[i], t);
    }
  }

  lemma OthersAreOlder(s: State, i: nat, s': State, ticket: nat)
    requires PassedInv(s) && EpochInv(s) && Acts(s, i) && s.agents[i].doing == Cleared(ticket)
    requires s.agents[i].lease.Some? && s.agents[i].lease.value.epoch == Epoch(s.row)
    requires s'.agents == s.agents[i := s.agents[i].(doing := Confirmed(ticket))]
    requires s'.past.cleared == s.past.cleared && s'.past.passed == s.past.passed + [ticket]
    ensures PendingOutdated(s')
  {
    forall t, j | t in s'.past.passed && 0 <= j < |s'.agents|
      ensures Outdated(s'.past.cleared, s'.agents[j], t)
    {
      if j != i {
        assert AgentBounded(s.agents[j], Epoch(s.row));
        assert s'.agents[j] == s.agents[j];
        if t in s.past.passed {
          assert Outdated(s.past.cleared, s.agents[j], t);
        } else {
          assert t == ticket && TicketIsOwn(s.past.cleared, s.agents[i]);
          assert s.agents[j].lease.value.epoch != s.agents[i].lease.value.epoch;
        }
      }
    }
  }

  /** What a process reads as AUTHORIZED has not been dispatched by anyone. */
  lemma ReadIsCalm(s: State, i: nat, r: RequestId, s': State)
    requires PassedInv(s) && TablesInv(s) && s' == DoReadAttempt(s, i, r)
    ensures Calm(s, s')
  {
    if s' != s && s.db.attempts[r].state.Authorized? {
      assert NotPassed(s.past, r) by {
        forall t | t in s.past.passed && t < |s.past.cleared| ensures s.past.cleared[t].request != r {
          assert Left(s.db, s.past.cleared[t].request);
        }
      }
    }
  }

  lemma DispatchIsCalm(s: State, i: nat, s': State)
    requires PassedInv(s) && s' == DoCommitDispatch(s, i)
    ensures Calm(s, s')
  {
    forall j | 0 <= j < |s.agents| ensures AgentCalm(s.past, s'.past, s.agents[j], s'.agents[j]) {
      assert TicketIsOwn(s.past.cleared, s.agents[j]);
    }
  }

  lemma OtherStepsAreCalm(s: State, step: Step, s': State)
    requires PassedInv(s) && s' == Apply(s, step) && Epoch(s.row) <= Epoch(s'.row)
    requires !step.CheckLease? && !step.ReadAttempt? && !step.CommitDispatch? && !step.Spawn?
    ensures Calm(s, s')
  {
    OtherStepsPassNothing(s, step, s');
    forall j | 0 <= j < |s.agents| ensures AgentCalm(s.past, s'.past, s.agents[j], s'.agents[j]) {
      assert TicketIsOwn(s.past.cleared, s.agents[j]);
      OtherStepsMoveCalmly(s, step, s', j);
    }
  }

  lemma OtherStepsPassNothing(s: State, step: Step, s': State)
    requires s' == Apply(s, step)
    requires !step.CheckLease? && !step.ReadAttempt? && !step.CommitDispatch? && !step.Spawn?
    ensures s'.past.passed == s.past.passed && s'.past.cleared == s.past.cleared
    ensures |s.agents| <= |s'.agents|
    ensures forall i :: |s.agents| <= i < |s'.agents| ==> s'.agents[i].lease.Some? && s'.agents[i].doing.Idle?
  {
  }

  /** A process keeps its lease, and keeps what it pends on or drops it. */
  predicate MovesCalmly(agent: Agent, agent': Agent, cleared: seq<Clearance>) {
    && agent'.lease == agent.lease
    && (agent'.doing.Cleared? ==> agent'.doing == agent.doing)
    && (Pending(agent'.doing, cleared).None? || Pending(agent'.doing, cleared) == Pending(agent.doing, cleared))
  }

  lemma OtherStepsMoveCalmly(s: State, step: Step, s': State, j: nat)
    requires s' == Apply(s, step) && j < |s.agents| <= |s'.agents|
    requires !step.CheckLease? && !step.ReadAttempt? && !step.CommitDispatch? && !step.Spawn?
    ensures MovesCalmly(s.agents[j], s'.agents[j], s.past.cleared)
  {
    if WritesTables(step) {
      TableWritersMoveCalmly(s, step, s', j);
    } else {
      ReadersMoveCalmly(s, step, s', j);
    }
  }

  lemma TableWritersMoveCalmly(s: State, step: Step, s': State, j: nat)
    requires s' == Apply(s, step) && j < |s.agents| <= |s'.agents| && WritesTables(step) && !step.CommitDispatch?
    ensures MovesCalmly(s.agents[j], s'.agents[j], s.past.cleared)
  {
  }

  lemma ReadersMoveCalmly(s: State, step: Step, s': State, j: nat)
    requires s' == Apply(s, step) && j < |s.agents| <= |s'.agents| && !WritesTables(step)
    requires !step.CheckLease? && !step.ReadAttempt? && !step.Spawn?
    ensures MovesCalmly(s.agents[j], s'.agents[j], s.past.cleared)
  {
  }

  lemma StepKeepsPassed(s: State, step: Step, s': State)
    requires PassedInv(s) && EpochInv(s) && TablesInv(s) && TicketsInv(s)
    requires s' == Apply(s, step) && !StaleWrite(s, step) && !step.Spawn?
    ensures PassedInv(s')
  {
    match step
    case CheckLease(i) => LeaseCheckKeepsPassed(s, i, s');
    case ReadAttempt(i, r) =>
      ReadIsCalm(s, i, r, s');
      CalmKeepsPassed(s, s');
    case CommitDispatch(i) =>
      DispatchIsCalm(s, i, s');
      CalmKeepsPassed(s, s');
    case _ =>
      StepKeepsEpochs(s, step, s');
      OtherStepsAreCalm(s, step, s');
      CalmKeepsPassed(s, s');
  }

  // ------------------------------------------------------------------ main result

  predicate OnlyLeased(steps: seq<Step>) {
    forall n :: 0 <= n < |steps| ==> !steps[n].Spawn?
  }

  lemma {:induction false} RunKeepsPassed(limits: Limits, steps: seq<Step>)
    requires OnlyLeased(steps) && NoStaleWrite(Initial(limits), steps)
    ensures PassedInv(Run(Initial(limits), steps))
  {
    if steps != [] {
      var front := steps[..|steps| - 1];
      FrontNotStale(Initial(limits), steps);
      RunKeepsPassed(limits, front);
      RunKeepsEpochs(limits, front);
      RunKeepsTables(limits, front);
      RunKeepsTickets(limits, front);
      StepKeepsPassed(Run(Initial(limits), front), steps[|steps| - 1], Run(Initial(limits), steps));
    }
  }

  /**
    Any number of leased processes, crashes, takeovers and stale reads: each request is let through to the Worker
    at most once, hence called at most once, although several of them may have committed its dispatch.
   */
  lemma {:induction false} LeasedProcessesInvokeAtMostOnce(limits: Limits, steps: seq<Step>)
    requires OnlyLeased(steps) && NoStaleWrite(Initial(limits), steps)
    ensures PassedOnce(Run(Initial(limits), steps).past)
    ensures EachInvokedOnce(Run(Initial(limits), steps).past)
  {
    RunKeepsPassed(limits, steps);
    RunKeepsTickets(limits, steps);
    var past := Run(Initial(limits), steps).past;
    forall a, b | 0 <= a < b < |past.invoked| && past.invoked[a] < |past.cleared| && past.invoked[b] < |past.cleared|
      ensures past.cleared[past.invoked[a]].request != past.cleared[past.invoked[b]].request
    {
      var ta, tb := past.invoked[a], past.invoked[b];
      assert ta in past.invoked && tb in past.invoked && ta != tb;
      var pa :| 0 <= pa < |past.passed| && past.passed[pa] == ta;
      var pb :| 0 <= pb < |past.passed| && past.passed[pb] == tb;
      assert !SameRequest(past.cleared, past.passed[if pa < pb then pa else pb], past.passed[if pa < pb then pb else pa]);
    }
  }
}
