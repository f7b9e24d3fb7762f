/**
  Lease epochs over runs. While no accepted write puts an outdated record back, epochs only grow, accepted fenced
  operations form a nondecreasing sequence, and a fenced process calls the Worker at most once per request.
 */
module Fencing {
  import opened Wrappers
  import opened Ledger
  import opened Execution
  import opened Runs
  import O = Orchestration

  // ------------------------------------------------------------------ stale writes

  /** The record and guard of the row write a step attempts, when it attempts one. */
  function RowWrite(s: State, step: Step): Option<(Row, O.SaveGuard)> {
    match step
    case OperatorWrites(read, command) =>
      if read < |s.snapshots| then O.OperatorWrite(command, s.snapshots[read]) else None
    case Save(i, update) =>
      if MaySave(s, i, update)
      then Some((O.UpdateRow(s.agents[i].current.value, update), GuardOf(s.agents[i].lease))) else None
    case EndCycle(i, end) =>
      if MayEnd(s, i, end)
      then Some((O.CompleteCycleRow(s.agents[i].current.value, end), GuardOf(s.agents[i].lease))) else None
    case CommitAuthorization(i, r, verdict, plan, hooked) =>
      if Acts(s, i) && s.agents[i].current.Some? && s.agents[i].doing.Authorizing?
         && s.agents[i].doing.experiment in s.db.experiments && hooked
         && AuthorizeWrite(s.db, s.agents[i].doing.experiment, r, verdict, plan).authorized
      then Some((O.UpdateRow(s.agents[i].current.value, O.PersistAttempt), GuardOf(s.agents[i].lease))) else None
    case _ => None
  }

  /** The same for unfenced writes only. */
  function PlainWrite(s: State, step: Step): Option<(Row, O.SaveGuard)> {
    var write := RowWrite(s, step);
    if write.Some? && write.value.1.expectOwner.None? then write else None
  }

  /** An unfenced write is accepted although its record was read under another epoch. */
  predicate StaleWrite(s: State, step: Step) {
    var write := PlainWrite(s, step);
    && write.Some? && s.row.Some?
    && O.SaveRow(s.row, write.value.0, write.value.1, s.now).outcome.Saved?
    && write.value.0.epoch != s.row.value.epoch
  }

  predicate NoStaleWrite(s: State, steps: seq<Step>) {
    forall n :: 0 <= n < |steps| ==> !StaleWrite(Run(s, steps[..n]), steps[n])
  }

  // ------------------------------------------------------------------ epochs

  ghost predicate AgentsBounded(agents: seq<Agent>, epoch: nat) {
    forall i :: 0 <= i < |agents| ==> AgentBounded(agents[i], epoch)
  }

  predicate AgentBounded(agent: Agent, epoch: nat) {
    && (agent.lease.Some? ==> 1 <= agent.lease.value.epoch <= epoch)
    && (agent.current.Some? ==> agent.current.value.epoch <= epoch)
    && (agent.lease.Some? && agent.current.Some? ==> agent.lease.value.epoch <= agent.current.value.epoch)
  }

  ghost predicate LeasesIncrease(agents: seq<Agent>) {
    forall i, j :: 0 <= i < j < |agents| && agents[i].lease.Some? && agents[j].lease.Some? ==>
      agents[i].lease.value.epoch < agents[j].lease.value.epoch
  }

  ghost predicate SnapshotsBounded(snapshots: seq<Row>, epoch: nat) {
    forall k :: 0 <= k < |snapshots| ==> snapshots[k].epoch <= epoch
  }

  ghost predicate Nondecreasing(epochs: seq<nat>) {
    forall i, j :: 0 <= i < j < |epochs| ==> epochs[i] <= epochs[j]
  }

  ghost predicate AcceptedBounded(epochs: seq<nat>, epoch: nat) {
    forall i :: 0 <= i < |epochs| ==> epochs[i] <= epoch
  }

  ghost predicate EpochInv(s: State) {
    && AgentsBounded(s.agents, Epoch(s.row)) && LeasesIncrease(s.agents)
    && SnapshotsBounded(s.snapshots, Epoch(s.row))
    && Nondecreasing(s.past.accepted) && AcceptedBounded(s.past.accepted, Epoch(s.row))
  }

  /** At most one epoch is accepted by a step, and it is the row's. */
  predicate AcceptsAt(before: seq<nat>, after: seq<nat>, epoch: nat) {
    after == before || after == before + [epoch]
  }

  predicate AgentFollows(agent: Agent, agent': Agent, epoch: nat) {
    && agent'.lease == agent.lease
    && (agent'.current == agent.current || agent'.current.None? || agent'.current.value.epoch == epoch)
  }

  predicate NewAgent(agent: Agent) {
    agent.lease.None? && agent.current.None?
  }

  /** A step that keeps the row's epoch. */
  ghost predicate KeepsEpoch(s: State, s': State) {
    && Epoch(s'.row) == Epoch(s.row)
    && |s.agents| <= |s'.agents|
    && (forall i :: 0 <= i < |s.agents| ==> AgentFollows(s.agents[i], s'.agents[i], Epoch(s.row)))
    && (forall i :: |s.agents| <= i < |s'.agents| ==> NewAgent(s'.agents[i]))
    && (s'.snapshots == s.snapshots || (s.row.Some? && s'.snapshots == s.snapshots + [s.row.value]))
    && AcceptsAt(s.past.accepted, s'.past.accepted, Epoch(s.row))
  }

  lemma KeptEpochKeepsInv(s: State, s': State)
    requires EpochInv(s) && KeepsEpoch(s, s')
    ensures EpochInv(s')
  {
    assert AgentsBounded(s'.agents, Epoch(s'.row)) by {
      forall i | 0 <= i < |s'.agents| ensures AgentBounded(s'.agents[i], Epoch(s'.row)) {
        if i < |s.agents| {
          assert AgentBounded(s.agents[i], Epoch(s.row)) && AgentFollows(s.agents[i], s'.agents[i], Epoch(s.row));
        } else {
          assert NewAgent(s'.agents[i]);
        }
      }
    }
    assert LeasesIncrease(s'.agents) by {
      forall i, j | 0 <= i < j < |s'.agents| && s'.agents[i].lease.Some? && s'.agents[j].lease.Some?
        ensures s'.agents[i].lease.value.epoch < s'.agents[j].lease.value.epoch
      {
        if j < |s.agents| {
          assert AgentFollows(s.agents[i], s'.agents[i], Epoch(s.row));
          assert AgentFollows(s.agents[j], s'.agents[j], Epoch(s.row));
        }
      }
    }
  }

  lemma AcquisitionKeepsEpochs(s: State, owner: O.RuntimeId, ttl: O.Time, s': State)
    requires EpochInv(s) && s' == DoAcquire(s, owner, ttl)
    ensures EpochInv(s') && (s' == s || Epoch(s'.row) == Epoch(s.row) + 1)
    ensures AcceptsAt(s.past.accepted, s'.past.accepted, Epoch(s'.row))
  {
    if s' != s {
      forall i | 0 <= i < |s'.agents| ensures AgentBounded(s'.agents[i], Epoch(s'.row)) {
        if i < |s.agents| {
          assert AgentBounded(s.agents[i], Epoch(s.row));
        }
      }
      forall i, j | 0 <= i < j < |s'.agents| && s'.agents[i].lease.Some? && s'.agents[j].lease.Some?
        ensures s'.agents[i].lease.value.epoch < s'.agents[j].lease.value.epoch
      {
        assert AgentBounded(s.agents[i], Epoch(s.row));
      }
    }
  }

  /** An accepted save whose record carries the row's epoch. */
  lemma SavedEpoch(row: Option<Row>, agent: Agent, record: Row, now: O.Time)
    requires row.Some? && AgentBounded(agent, Epoch(row)) && agent.current.Some?
    requires record.epoch == agent.current.value.epoch
    requires O.SaveRow(row, record, GuardOf(agent.lease), now).outcome.Saved?
    requires agent.lease.None? ==> record.epoch == row.value.epoch
    ensures record.epoch == row.value.epoch
    ensures agent.lease.Some? ==> agent.lease.value.epoch == row.value.epoch
  {
  }

  lemma SaveKeepsEpoch(s: State, i: nat, update: O.RowUpdate, s': State)
    requires EpochInv(s) && s' == DoSave(s, i, update) && !StaleWrite(s, Save(i, update))
    ensures KeepsEpoch(s, s')
  {
    if MaySave(s, i, update) {
      assert AgentBounded(s.agents[i], Epoch(s.row));
      var record := O.UpdateRow(s.agents[i].current.value, update);
      if O.SaveRow(s.row, record, GuardOf(s.agents[i].lease), s.now).outcome.Saved? {
        SavedEpoch(s.row, s.agents[i], record, s.now);
      }
    }
  }

  lemma EndCycleKeepsEpoch(s: State, i: nat, end: O.CycleEnd, s': State)
    requires EpochInv(s) && s' == DoEndCycle(s, i, end) && !StaleWrite(s, EndCycle(i, end))
    ensures KeepsEpoch(s, s')
  {
    if MayEnd(s, i, end) {
      assert AgentBounded(s.agents[i], Epoch(s.row));
      var record := O.CompleteCycleRow(s.agents[i].current.value, end);
      if O.SaveRow(s.row, record, GuardOf(s.agents[i].lease), s.now).outcome.Saved? {
        SavedEpoch(s.row, s.agents[i], record, s.now);
      }
    }
  }

  lemma AuthorizationKeepsEpoch(
    s: State, i: nat, r: RequestId, verdict: Verdict, plan: PlanBinding, hooked: bool, s': State)
    requires EpochInv(s) && s' == DoCommitAuthorization(s, i, r, verdict, plan, hooked)
    requires !StaleWrite(s, CommitAuthorization(i, r, verdict, plan, hooked))
    ensures KeepsEpoch(s, s')
  {
    if s'.row != s.row || s'.past.accepted != s.past.accepted {
      assert AgentBounded(s.agents[i], Epoch(s.row));
      var record := O.UpdateRow(s.agents[i].current.value, O.PersistAttempt);
      SavedEpoch(s.row, s.agents[i], record, s.now);
    }
  }

  lemma OperatorKeepsEpoch(s: State, read: nat, command: O.OperatorCommand, s': State)
    requires EpochInv(s) && s' == DoOperatorWrite(s, read, command) && !StaleWrite(s, OperatorWrites(read, command))
    ensures KeepsEpoch(s, s')
  {
  }

  predicate WritesRecord(step: Step) {
    step.Save? || step.EndCycle? || step.CommitAuthorization? || step.OperatorWrites?
  }

  lemma OtherStepsKeepEpoch(s: State, step: Step, s': State)
    requires !WritesRecord(step) && !step.Acquire? && s' == Apply(s, step)
    ensures KeepsEpoch(s, s')
  {
    OtherStepsKeepRow(s, step, s');
    forall j | 0 <= j < |s'.agents|
      ensures if j < |s.agents| then AgentFollows(s.agents[j], s'.agents[j], Epoch(s.row)) else NewAgent(s'.agents[j])
    {
      OtherStepsKeepAgent(s, step, s', j);
    }
  }

  lemma OtherStepsKeepRow(s: State, step: Step, s': State)
    requires !WritesRecord(step) && !step.Acquire? && s' == Apply(s, step)
    ensures Epoch(s'.row) == Epoch(s.row) && |s.agents| <= |s'.agents|
    ensures s'.snapshots == s.snapshots || (s.row.Some? && s'.snapshots == s.snapshots + [s.row.value])
    ensures AcceptsAt(s.past.accepted, s'.past.accepted, Epoch(s.row))
  {
  }

  lemma OtherStepsKeepAgent(s: State, step: Step, s': State, j: nat)
    requires !WritesRecord(step) && !step.Acquire? && s' == Apply(s, step) && j < |s'.agents|
    ensures if j < |s.agents| then AgentFollows(s.agents[j], s'.agents[j], Epoch(s.row)) else NewAgent(s'.agents[j])
  {
  }

  lemma StepKeepsEpochs(s: State, step: Step, s': State)
    requires EpochInv(s) && s' == Apply(s, step) && !StaleWrite(s, step)
    ensures EpochInv(s') && Epoch(s.row) <= Epoch(s'.row)
    ensures AcceptsAt(s.past.accepted, s'.past.accepted, Epoch(s'.row))
    ensures step.Acquire? || KeepsEpoch(s, s')
  {
    match step {
      case Acquire(owner, ttl) => AcquisitionKeepsEpochs(s, owner, ttl, s');
      case Save(i, update) => SaveKeepsEpoch(s, i, update, s');
      case EndCycle(i, end) => EndCycleKeepsEpoch(s, i, end, s');
      case CommitAuthorization(i, r, verdict, plan, hooked) => AuthorizationKeepsEpoch(s, i, r, verdict, plan, hooked, s');
      case OperatorWrites(read, command) => OperatorKeepsEpoch(s, read, command, s');
      case _ => OtherStepsKeepEpoch(s, step, s');
    }
    if !step.Acquire? {
      KeptEpochKeepsInv(s, s');
    }
  }

  lemma {:induction false} RunKeepsEpochs(limits: Limits, steps: seq<Step>)
    requires NoStaleWrite(Initial(limits), steps)
    ensures EpochInv(Run(Initial(limits), steps))
  {
    if steps != [] {
      var front := steps[..|steps| - 1];
      FrontNotStale(Initial(limits), steps);
      RunKeepsEpochs(limits, front);
      StepKeepsEpochs(Run(Initial(limits), front), steps[|steps| - 1], Run(Initial(limits), steps));
    }
  }

  lemma {:induction false} FrontNotStale(s: State, steps: seq<Step>)
    requires steps != [] && NoStaleWrite(s, steps)
    ensures NoStaleWrite(s, steps[..|steps| - 1])
    ensures !StaleWrite(Run(s, steps[..|steps| - 1]), steps[|steps| - 1])
  {
    var front := steps[..|steps| - 1];
    forall n | 0 <= n < |front| ensures !StaleWrite(Run(s, front[..n]), front[n]) {
      assert front[..n] == steps[..n];
    }
  }

  // ------------------------------------------------------------------ main results on epochs

  /** From any point on, whatever a fenced process gets accepted carries at least the epoch of that point. */
  ghost predicate AcceptedSince(before: seq<nat>, after: seq<nat>, epoch: nat) {
    && before <= after
    && forall k :: |before| <= k < |after| ==> epoch <= after[k]
  }

  lemma {:induction false} OldLeasesStayFenced(s: State, steps: seq<Step>)
    requires EpochInv(s) && NoStaleWrite(s, steps)
    ensures EpochInv(Run(s, steps)) && Epoch(s.row) <= Epoch(Run(s, steps).row)
    ensures AcceptedSince(s.past.accepted, Run(s, steps).past.accepted, Epoch(s.row))
  {
    if steps != [] {
      var front := steps[..|steps| - 1];
      FrontNotStale(s, steps);
      OldLeasesStayFenced(s, front);
      StepKeepsEpochs(Run(s, front), steps[|steps| - 1], Run(s, steps));
    }
  }

  /**
    Accepted acquisitions, renewals, fenced saves and lease checks of all instances form a nondecreasing sequence of
    epochs, and once the row's epoch is `e`, nothing that remembers a smaller epoch is accepted again.
   */
  lemma {:induction false} FencedHistory(limits: Limits, steps: seq<Step>, more: seq<Step>)
    requires NoStaleWrite(Initial(limits), steps) && NoStaleWrite(Run(Initial(limits), steps), more)
    ensures
      var s := Run(Initial(limits), steps);
      var s' := Run(s, more);
      && Nondecreasing(s'.past.accepted)
      && AcceptedSince(s.past.accepted, s'.past.accepted, Epoch(s.row))
  {
    RunKeepsEpochs(limits, steps);
    OldLeasesStayFenced(Run(Initial(limits), steps), more);
  }

  ghost predicate EpochNeverFalls(s: State, steps: seq<Step>) {
    forall n :: 0 <= n < |steps| ==> Epoch(Run(s, steps[..n]).row) <= Epoch(Run(s, steps[..n + 1]).row)
  }

  lemma StaleWriteLowersEpoch(s: State, step: Step)
    requires EpochInv(s) && StaleWrite(s, step)
    ensures Epoch(Apply(s, step).row) < Epoch(s.row)
  {
    match step {
      case OperatorWrites(read, command) =>
      case Save(i, update) => assert AgentBounded(s.agents[i], Epoch(s.row));
      case EndCycle(i, end) => assert AgentBounded(s.agents[i], Epoch(s.row));
      case CommitAuthorization(i, r, verdict, plan, hooked) => assert AgentBounded(s.agents[i], Epoch(s.row));
    }
  }

  /** The epoch never falls in a run exactly when no accepted unfenced write carries another epoch than the row. */
  lemma {:induction false} EpochFallsExactlyOnStaleWrite(limits: Limits, steps: seq<Step>)
    ensures EpochNeverFalls(Initial(limits), steps) <==> NoStaleWrite(Initial(limits), steps)
  {
    var s0 := Initial(limits);
    if steps != [] {
      var front, step := steps[..|steps| - 1], steps[|steps| - 1];
      EpochFallsExactlyOnStaleWrite(limits, front);
      assert steps[..|steps|] == steps;
      assert forall n :: 0 <= n <= |front| ==> front[..n] == steps[..n];
      if NoStaleWrite(s0, steps) {
        FrontNotStale(s0, steps);
        RunKeepsEpochs(limits, front);
        StepKeepsEpochs(Run(s0, front), step, Run(s0, steps));
        NeverFallsExtends(s0, steps);
      }
      if EpochNeverFalls(s0, steps) {
        NeverFallsFront(s0, steps);
        RunKeepsEpochs(limits, front);
        assert Epoch(Run(s0, steps[..|front|]).row) <= Epoch(Run(s0, steps[..|front| + 1]).row);
        if StaleWrite(Run(s0, front), step) {
          StaleWriteLowersEpoch(Run(s0, front), step);
        }
        NoStaleExtends(s0, steps);
      }
    }
  }

  lemma {:induction false} NeverFallsExtends(s: State, steps: seq<Step>)
    requires steps != [] && EpochNeverFalls(s, steps[..|steps| - 1])
    requires Epoch(Run(s, steps[..|steps| - 1]).row) <= Epoch(Run(s, steps).row)
    ensures EpochNeverFalls(s, steps)
  {
    var front := steps[..|steps| - 1];
    forall n | 0 <= n < |steps|
      ensures Epoch(Run(s, steps[..n]).row) <= Epoch(Run(s, steps[..n + 1]).row)
    {
      if n < |front| {
        assert front[..n] == steps[..n] && front[..n + 1] == steps[..n + 1];
      } else {
        assert steps[..n] == front && steps[..n + 1] == steps;
      }
    }
  }

  lemma {:induction false} NeverFallsFront(s: State, steps: seq<Step>)
    requires steps != [] && EpochNeverFalls(s, steps)
    ensures EpochNeverFalls(s, steps[..|steps| - 1])
  {
    var front := steps[..|steps| - 1];
    forall n | 0 <= n < |front|
      ensures Epoch(Run(s, front[..n]).row) <= Epoch(Run(s, front[..n + 1]).row)
    {
      assert front[..n] == steps[..n] && front[..n + 1] == steps[..n + 1];
    }
  }

  lemma {:induction false} NoStaleExtends(s: State, steps: seq<Step>)
    requires steps != [] && NoStaleWrite(s, steps[..|steps| - 1])
    requires !StaleWrite(Run(s, steps[..|steps| - 1]), steps[|steps| - 1])
    ensures NoStaleWrite(s, steps)
  {
    var front := steps[..|steps| - 1];
    forall n | 0 <= n < |steps| ensures !StaleWrite(Run(s, steps[..n]), steps[n]) {
      if n < |front| {
        assert front[..n] == steps[..n];
      }
    }
  }
}
