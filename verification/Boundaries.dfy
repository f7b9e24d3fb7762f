/**
  Operator commands interleaved at transaction boundaries: each command saves the record it has just read. Runs of this
  kind need no assumption about what is written.
 */
module Boundaries {
  import opened Wrappers
  import opened Ledger
  import opened Store
  import opened Runs
  import opened Dispatches
  import opened Fencing
  import opened FencedCalls
  import opened EndStates
  import opened Cycles
  import O = Orchestration

  /** Step `n`, if it is a command's save, directly follows that command's own read. */
  predicate AtBoundary(s: State, steps: seq<Step>, n: nat)
    requires n < |steps|
  {
    steps[n].OperatorWrites? ==>
      && n > 0 && steps[n - 1].OperatorReads?
      && steps[n].read + 1 == |Run(s, steps[..n]).snapshots|
  }

  predicate AtBoundaries(s: State, steps: seq<Step>) {
    forall n :: 0 <= n < |steps| ==> AtBoundary(s, steps, n)
  }

  /** What such a command saves carries the row's own cycle number and epoch. */
  lemma CommandIsCurrent(before: State, s: State, read: nat, command: O.OperatorCommand)
    requires s == Apply(before, OperatorReads) && read + 1 == |s.snapshots|
    ensures
      var step := OperatorWrites(read, command);
      !StaleWrite(s, step) && !OldNumber(s, step) && !OldRecord(s, step)
  {
  }

  lemma BoundaryCommandIsCurrent(s0: State, steps: seq<Step>, n: nat)
    requires n < |steps| && AtBoundary(s0, steps, n) && steps[n].OperatorWrites?
    ensures
      var s := Run(s0, steps[..n]);
      !StaleWrite(s, steps[n]) && !OldNumber(s, steps[n]) && !OldRecord(s, steps[n])
  {
    assert steps[..n][..n - 1] == steps[..n - 1];
    CommandIsCurrent(Run(s0, steps[..n - 1]), Run(s0, steps[..n]), steps[n].read, steps[n].command);
  }

  // ------------------------------------------------------------------ leased processes

  lemma {:induction false} OnlyLeasesRun(limits: Limits, steps: seq<Step>)
    requires OnlyLeased(steps)
    ensures AllLeased(Run(Initial(limits), steps).agents)
  {
    if steps != [] {
      var front, step := steps[..|steps| - 1], steps[|steps| - 1];
      OnlyLeasesRun(limits, front);
      LeasesStay(Run(Initial(limits), front), step, Run(Initial(limits), steps));
    }
  }

  lemma LeasesStay(s: State, step: Step, s': State)
    requires AllLeased(s.agents) && !step.Spawn? && s' == Apply(s, step)
    ensures AllLeased(s'.agents)
  {
    NewProcessesHoldLeases(s, step, s');
    forall j | 0 <= j < |s'.agents| ensures s'.agents[j].lease.Some? {
      if j < |s.agents| {
        LeaseNeverChanges(s, step, s', j);
      }
    }
  }

  /** The only unfenced writes of leased processes' runs are the operators'. */
  lemma LeasedWritesAreFenced(s: State, step: Step)
    requires AllLeased(s.agents) && !step.OperatorWrites?
    ensures !StaleWrite(s, step)
  {
  }

  lemma {:induction false} BoundaryRunsAreCurrent(limits: Limits, steps: seq<Step>)
    requires OnlyLeased(steps) && AtBoundaries(Initial(limits), steps)
    ensures NoStaleWrite(Initial(limits), steps) && NoOldNumber(Initial(limits), steps)
  {
    var s0 := Initial(limits);
    forall n | 0 <= n < |steps|
      ensures !StaleWrite(Run(s0, steps[..n]), steps[n]) && !OldNumber(Run(s0, steps[..n]), steps[n])
    {
      assert AtBoundary(s0, steps, n);
      if steps[n].OperatorWrites? {
        BoundaryCommandIsCurrent(s0, steps, n);
      } else {
        OnlyLeasesRun(limits, steps[..n]);
        LeasedWritesAreFenced(Run(s0, steps[..n]), steps[n]);
      }
    }
  }

  /**
    Leased processes with operator commands at transaction boundaries, in every interleaving with crashes and takeovers:
    accepted epochs never decrease, each request reaches the Worker at most once, and the cycle records are exactly
    1..cycle_number throughout.
   */
  lemma {:induction false} LeasedRunsAtBoundaries(limits: Limits, steps: seq<Step>)
    requires OnlyLeased(steps) && AtBoundaries(Initial(limits), steps)
    ensures Nondecreasing(Run(Initial(limits), steps).past.accepted)
    ensures EachInvokedOnce(Run(Initial(limits), steps).past)
    ensures AlwaysExact(Initial(limits), steps)
  {
    BoundaryRunsAreCurrent(limits, steps);
    RunKeepsEpochs(limits, steps);
    LeasedProcessesInvokeAtMostOnce(limits, steps);
    ExactExactlyWithoutOldNumbers(limits, steps);
  }

  /** A call of the Worker was for a request of this experiment. */
  predicate CalledFor(s: State, ticket: nat, x: ExperimentId) {
    && ticket < |s.past.cleared| && s.past.cleared[ticket].request in s.db.attempts
    && s.db.attempts[s.past.cleared[ticket].request].experiment == x
  }

  /** When every attempt is authorized through the hook as well, the Worker is called at most once per experiment. */
  lemma {:induction false} OneCallPerExperiment(limits: Limits, steps: seq<Step>, x: ExperimentId, a: nat, b: nat)
    requires OnlyLeased(steps) && AllHooked(steps) && NoStaleWrite(Initial(limits), steps)
    requires a < |Run(Initial(limits), steps).past.invoked| && b < |Run(Initial(limits), steps).past.invoked|
    requires CalledFor(Run(Initial(limits), steps), Run(Initial(limits), steps).past.invoked[a], x)
    requires CalledFor(Run(Initial(limits), steps), Run(Initial(limits), steps).past.invoked[b], x)
    ensures a == b
  {
    var s := Run(Initial(limits), steps);
    var r, q := s.past.cleared[s.past.invoked[a]].request, s.past.cleared[s.past.invoked[b]].request;
    if r != q {
      OneAttemptPerExperiment(limits, steps, r, q);
    } else {
      LeasedProcessesInvokeAtMostOnce(limits, steps);
    }
  }

  // ------------------------------------------------------------------ one controller at a time

  /** A process only appears when no other is alive, with or without a lease. */
  predicate Alone(s: State) {
    forall i :: 0 <= i < |s.agents| ==> !s.agents[i].alive
  }

  predicate OneAtATime(s: State, steps: seq<Step>) {
    forall n :: 0 <= n < |steps| && (steps[n].Spawn? || steps[n].Acquire?) ==> Alone(Run(s, steps[..n]))
  }

  predicate RemembersRow(row: Option<Row>, agent: Agent) {
    agent.alive && agent.current.Some? ==> row.Some? && agent.current.value.cycleNumber == row.value.cycleNumber
  }

  ghost predicate SoleInv(s: State) {
    && (forall i, j :: 0 <= i < j < |s.agents| ==> !(s.agents[i].alive && s.agents[j].alive))
    && forall i :: 0 <= i < |s.agents| ==> RemembersRow(s.row, s.agents[i])
  }

  /** A save by the sole process replaces the record it remembers. */
  lemma SoleWritesAreCurrent(s: State, step: Step)
    requires SoleInv(s) && !step.OperatorWrites?
    ensures !OldRecord(s, step)
  {
    if RowWrite(s, step).Some? {
      assert RemembersRow(s.row, s.agents[step.i]);
    }
  }

  lemma NoneRevives(s: State, step: Step, s': State, j: nat)
    requires s' == Apply(s, step) && j < |s.agents| <= |s'.agents|
    ensures s'.agents[j].alive ==> s.agents[j].alive
  {
  }

  lemma ProcessesAppear(s: State, step: Step, s': State)
    requires s' == Apply(s, step)
    ensures |s.agents| <= |s'.agents| <= |s.agents| + 1
    ensures |s'.agents| > |s.agents| ==> (step.Spawn? || step.Acquire?) && s'.agents[|s.agents|].current.None?
  {
  }

  lemma StaysSole(s: State, step: Step, s': State)
    requires SoleInv(s) && s' == Apply(s, step) && (step.Spawn? || step.Acquire? ==> Alone(s))
    ensures forall i, j :: 0 <= i < j < |s'.agents| ==> !(s'.agents[i].alive && s'.agents[j].alive)
  {
    ProcessesAppear(s, step, s');
    forall i, j | 0 <= i < j < |s'.agents| ensures !(s'.agents[i].alive && s'.agents[j].alive) {
      NoneRevives(s, step, s', i);
      if j < |s.agents| {
        NoneRevives(s, step, s', j);
      }
    }
  }

  /** Nobody but the writer remembers a record when the row's number changes, and the writer forgets it. */
  lemma EndCycleForgets(s: State, i: nat, end: O.CycleEnd, s': State)
    requires SoleInv(s) && s' == DoEndCycle(s, i, end)
    ensures forall j :: 0 <= j < |s'.agents| ==> RemembersRow(s'.row, s'.agents[j])
  {
    forall j | 0 <= j < |s'.agents| ensures RemembersRow(s'.row, s'.agents[j]) {
      assert RemembersRow(s.row, s.agents[j]);
      if s' != s && j != i {
        assert !(s.agents[if i < j then i else j].alive && s.agents[if i < j then j else i].alive);
      }
    }
  }

  lemma SavesRemember(s: State, step: Step, s': State)
    requires SoleInv(s) && s' == Apply(s, step) && WritesRecord(step) && !step.EndCycle? && !OldNumber(s, step)
    ensures Number(s'.row) == Number(s.row) && s'.row.Some? == s.row.Some?
    ensures forall j :: 0 <= j < |s'.agents| ==> RemembersRow(s'.row, s'.agents[j])
  {
    assert !step.OperatorWrites? && step.i < |s.agents| ==> RemembersRow(s.row, s.agents[step.i]);
    forall j | 0 <= j < |s'.agents| ensures RemembersRow(s'.row, s'.agents[j]) {
      assert RemembersRow(s.row, s.agents[j]);
    }
  }

  lemma OthersRemember(s: State, step: Step, s': State)
    requires SoleInv(s) && s' == Apply(s, step) && !WritesRecord(step)
    ensures forall j :: 0 <= j < |s'.agents| ==> RemembersRow(s'.row, s'.agents[j])
  {
    OtherStepsReadOnly(s, step, s');
    forall j | 0 <= j < |s'.agents| ensures RemembersRow(s'.row, s'.agents[j]) {
      if j < |s.agents| {
        NoneRevives(s, step, s', j);
        assert RemembersRow(s.row, s.agents[j]) && AgentFrom(s.row, s.agents[j], s'.agents[j]);
      }
    }
  }

  lemma StepKeepsSole(s: State, step: Step, s': State)
    requires SoleInv(s) && s' == Apply(s, step) && (step.Spawn? || step.Acquire? ==> Alone(s)) && !OldNumber(s, step)
    ensures SoleInv(s')
  {
    StaysSole(s, step, s');
    if step.EndCycle? {
      EndCycleForgets(s, step.i, step.end, s');
    } else if WritesRecord(step) {
      SavesRemember(s, step, s');
    } else {
      OthersRemember(s, step, s');
    }
  }

  lemma {:induction false} RunKeepsSole(limits: Limits, steps: seq<Step>)
    requires OneAtATime(Initial(limits), steps) && AtBoundaries(Initial(limits), steps)
    ensures SoleInv(Run(Initial(limits), steps))
  {
    if steps != [] {
      var s0, front, n := Initial(limits), steps[..|steps| - 1], |steps| - 1;
      assert forall k :: 0 <= k <= |front| ==> front[..k] == steps[..k];
      assert AtBoundaries(s0, front) by {
        forall k | 0 <= k < |front| ensures AtBoundary(s0, front, k) {
          assert AtBoundary(s0, steps, k);
        }
      }
      RunKeepsSole(limits, front);
      assert AtBoundary(s0, steps, n);
      if steps[n].OperatorWrites? {
        BoundaryCommandIsCurrent(s0, steps, n);
      }
      StepKeepsSole(Run(s0, front), steps[n], Run(s0, steps));
    }
  }

  /**
    One stepping controller at a time, fenced or not, with operator commands at transaction boundaries: the cycle
    records of the run are exactly 1..cycle_number throughout.
   */
  lemma {:induction false} OneControllerStaysExact(limits: Limits, steps: seq<Step>)
    requires OneAtATime(Initial(limits), steps) && AtBoundaries(Initial(limits), steps)
    ensures AlwaysExact(Initial(limits), steps)
  {
    var s0 := Initial(limits);
    forall n | 0 <= n < |steps| ensures !OldRecord(Run(s0, steps[..n]), steps[n]) {
      var prefix := steps[..n];
      assert forall k :: 0 <= k <= n ==> prefix[..k] == steps[..k];
      assert AtBoundary(s0, steps, n);
      if steps[n].OperatorWrites? {
        BoundaryCommandIsCurrent(s0, steps, n);
      } else {
        assert AtBoundaries(s0, prefix) by {
          forall k | 0 <= k < n ensures AtBoundary(s0, prefix, k) {
            assert AtBoundary(s0, steps, k);
          }
        }
        RunKeepsSole(limits, prefix);
        SoleWritesAreCurrent(Run(s0, prefix), steps[n]);
      }
    }
    ExactExactlyWithoutOldRecords(limits, steps);
  }
}
