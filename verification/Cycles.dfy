/** The cycle records of a run: always numbered 1..m without gaps, and exactly 1..cycle_number unless a command saves an old record. */
module Cycles {
  import opened Wrappers
  import opened Ledger
  import opened Execution
  import opened Runs
  import opened Fencing
  import opened FencedCalls
  import O = Orchestration

  /** {1, ..., m}. */
  function UpTo(m: nat): (numbers: set<nat>)
    ensures forall k :: k in numbers <==> 1 <= k <= m
  {
    if m == 0 then {} else UpTo(m - 1) + {m}
  }

  lemma UpToInjective(m: nat, n: nat)
    requires UpTo(m) == UpTo(n)
    ensures m == n
  {
    assert m > 0 ==> m in UpTo(m);
    assert n > 0 ==> n in UpTo(n);
  }

  predicate NumberedTo(row: Option<Row>, m: nat) {
    row.Some? ==> row.value.cycleNumber <= m
  }

  /** Cycle records are 1..m and no record anybody remembers has a larger cycle number. */
  ghost predicate CyclesInv(s: State, m: nat) {
    && s.cycles == UpTo(m) && NumberedTo(s.row, m)
    && (forall i :: 0 <= i < |s.agents| ==> NumberedTo(s.agents[i].current, m))
    && (forall k :: 0 <= k < |s.snapshots| ==> s.snapshots[k].cycleNumber <= m)
  }

  lemma EndCycleKeepsCycles(s: State, i: nat, end: O.CycleEnd, m: nat, s': State) returns (m': nat)
    requires CyclesInv(s, m) && s' == DoEndCycle(s, i, end)
    ensures CyclesInv(s', m') && m <= m' <= m + 1
  {
    m' := m;
    if s'.cycles != s.cycles {
      assert NumberedTo(s.agents[i].current, m);
      var number := s.agents[i].current.value.cycleNumber + 1;
      if number > m {
        m' := m + 1;
      }
      assert s'.cycles == UpTo(m');
    } else if s'.row != s.row {
      assert NumberedTo(s.agents[i].current, m);
      if O.Inserts(end) {
        assert s.agents[i].current.value.cycleNumber + 1 in s.cycles;
      }
    }
  }

  predicate AgentFrom(row: Option<Row>, agent: Agent, agent': Agent) {
    agent'.current == agent.current || agent'.current.None? || agent'.current == row
  }

  /** No other step adds a cycle record or a record with a larger number. */
  lemma OtherStepsReadOnly(s: State, step: Step, s': State)
    requires s' == Apply(s, step) && !WritesRecord(step)
    ensures s'.cycles == s.cycles && |s.agents| <= |s'.agents|
    ensures s.row.Some? ==> s'.row.Some? && s'.row.value.cycleNumber == s.row.value.cycleNumber
    ensures s.row.None? ==> s'.row.None? || s'.row.value.cycleNumber == 0
    ensures forall i :: 0 <= i < |s.agents| ==> AgentFrom(s.row, s.agents[i], s'.agents[i])
    ensures forall i :: |s.agents| <= i < |s'.agents| ==> s'.agents[i].current.None?
  {
    OtherStepsCycleNothing(s, step, s');
    forall i | 0 <= i < |s'.agents|
      ensures if i < |s.agents| then AgentFrom(s.row, s.agents[i], s'.agents[i]) else s'.agents[i].current.None?
    {
      OtherStepsReadRow(s, step, s', i);
    }
  }

  lemma OtherStepsCycleNothing(s: State, step: Step, s': State)
    requires s' == Apply(s, step) && !WritesRecord(step)
    ensures s'.cycles == s.cycles && |s.agents| <= |s'.agents|
    ensures s.row.Some? ==> s'.row.Some? && s'.row.value.cycleNumber == s.row.value.cycleNumber
    ensures s.row.None? ==> s'.row.None? || s'.row.value.cycleNumber == 0
  {
  }

  lemma OtherStepsReadRow(s: State, step: Step, s': State, i: nat)
    requires s' == Apply(s, step) && !WritesRecord(step) && i < |s'.agents|
    ensures if i < |s.agents| then AgentFrom(s.row, s.agents[i], s'.agents[i]) else s'.agents[i].current.None?
  {
  }

  lemma OtherStepsSnapshots(s: State, step: Step, s': State)
    requires s' == Apply(s, step) && !WritesRecord(step)
    ensures s'.snapshots == s.snapshots || (s.row.Some? && s'.snapshots == s.snapshots + [s.row.value])
  {
  }

  lemma OtherStepsKeepCycles(s: State, step: Step, m: nat, s': State)
    requires CyclesInv(s, m) && s' == Apply(s, step) && !WritesRecord(step)
    ensures CyclesInv(s', m)
  {
    OtherStepsReadOnly(s, step, s');
    OtherStepsSnapshots(s, step, s');
    forall i | 0 <= i < |s'.agents| ensures NumberedTo(s'.agents[i].current, m) {
      if i < |s.agents| {
        assert AgentFrom(s.row, s.agents[i], s'.agents[i]) && NumberedTo(s.agents[i].current, m);
      }
    }
  }

  lemma SavesKeepCycles(s: State, step: Step, m: nat, s': State)
    requires CyclesInv(s, m) && s' == Apply(s, step) && WritesRecord(step) && !step.EndCycle?
    ensures CyclesInv(s', m)
  {
    match step
    case Save(i, update) =>
      assert i < |s.agents| ==> NumberedTo(s.agents[i].current, m);
    case CommitAuthorization(i, r, verdict, plan, hooked) =>
      assert i < |s.agents| ==> NumberedTo(s.agents[i].current, m);
    case OperatorWrites(read, command) =>
  }

  /** In every run, fenced or not, with any stale writes: cycle records are numbered 1..m and cycle_number is at most m. */
  lemma {:induction false} CycleRecordsAreContiguous(limits: Limits, steps: seq<Step>) returns (m: nat)
    ensures CyclesInv(Run(Initial(limits), steps), m)
  {
    if steps == [] {
      m := 0;
    } else {
      var front, step := steps[..|steps| - 1], steps[|steps| - 1];
      m := CycleRecordsAreContiguous(limits, front);
      var s, s' := Run(Initial(limits), front), Run(Initial(limits), steps);
      if step.EndCycle? {
        m := EndCycleKeepsCycles(s, step.i, step.end, m, s');
      } else if WritesRecord(step) {
        SavesKeepCycles(s, step, m, s');
      } else {
        OtherStepsKeepCycles(s, step, m, s');
      }
    }
  }

  // ------------------------------------------------------------------ exactly 1..cycle_number

  ghost predicate Exact(s: State) {
    s.cycles == if s.row.Some? then UpTo(s.row.value.cycleNumber) else {}
  }

  /** A process that has the row's epoch remembers the row's cycle number. */
  predicate RemembersNumber(row: Option<Row>, agent: Agent) {
    agent.lease.Some? && agent.current.Some? ==>
      && row.Some?
      && (agent.lease.value.epoch == row.value.epoch ==>
            agent.current.value.cycleNumber == row.value.cycleNumber)
  }

  ghost predicate ExactInv(s: State) {
    && AllLeased(s.agents) && Exact(s)
    && forall i :: 0 <= i < |s.agents| ==> RemembersNumber(s.row, s.agents[i])
  }

  /** An operator command is accepted although its record has another cycle number than the row. */
  predicate OldNumber(s: State, step: Step) {
    var write := PlainWrite(s, step);
    && step.OperatorWrites? && write.Some? && s.row.Some?
    && O.SaveRow(s.row, write.value.0, write.value.1, s.now).outcome.Saved?
    && write.value.0.cycleNumber != s.row.value.cycleNumber
  }

  predicate NoOldNumber(s: State, steps: seq<Step>) {
    forall n :: 0 <= n < |steps| ==> !OldNumber(Run(s, steps[..n]), steps[n])
  }

  lemma EndCycleKeepsExact(s: State, i: nat, end: O.CycleEnd, s': State)
    requires ExactInv(s) && EpochInv(s) && s' == DoEndCycle(s, i, end)
    ensures ExactInv(s')
  {
    if s'.row != s.row || s'.cycles != s.cycles {
      assert RemembersNumber(s.row, s.agents[i]) && AgentBounded(s.agents[i], Epoch(s.row));
      var record := O.CompleteCycleRow(s.agents[i].current.value, end);
      SavedEpoch(s.row, s.agents[i], record, s.now);
      forall j | 0 <= j < |s'.agents| ensures RemembersNumber(s'.row, s'.agents[j]) {
        assert RemembersNumber(s.row, s.agents[j]) && AgentBounded(s.agents[j], Epoch(s.row));
        assert j != i ==> s.agents[j].lease.value.epoch != s.agents[i].lease.value.epoch;
      }
    }
  }

  lemma SaveKeepsExact(s: State, i: nat, update: O.RowUpdate, s': State)
    requires ExactInv(s) && EpochInv(s) && s' == DoSave(s, i, update)
    ensures ExactInv(s')
  {
    if MaySave(s, i, update) {
      assert RemembersNumber(s.row, s.agents[i]) && AgentBounded(s.agents[i], Epoch(s.row));
      var record := O.UpdateRow(s.agents[i].current.value, update);
      if O.SaveRow(s.row, record, GuardOf(s.agents[i].lease), s.now).outcome.Saved? {
        SavedEpoch(s.row, s.agents[i], record, s.now);
      }
      SameNumberKeepsExact(s, s');
    }
  }

  lemma AuthorizationKeepsExact(
    s: State, i: nat, r: RequestId, verdict: Verdict, plan: PlanBinding, hooked: bool, s': State)
    requires ExactInv(s) && EpochInv(s) && s' == DoCommitAuthorization(s, i, r, verdict, plan, hooked)
    ensures ExactInv(s')
  {
    if s'.row != s.row {
      assert RemembersNumber(s.row, s.agents[i]) && AgentBounded(s.agents[i], Epoch(s.row));
      SavedEpoch(s.row, s.agents[i], O.UpdateRow(s.agents[i].current.value, O.PersistAttempt), s.now);
    }
    AuthorizationKeepsNumber(s, i, r, verdict, plan, hooked, s');
    SameNumberKeepsExact(s, s');
  }

  lemma AuthorizationKeepsNumber(
    s: State, i: nat, r: RequestId, verdict: Verdict, plan: PlanBinding, hooked: bool, s': State)
    requires ExactInv(s) && s' == DoCommitAuthorization(s, i, r, verdict, plan, hooked)
    requires s'.row != s.row ==> i < |s.agents| && s.agents[i].current.Some? && s.row.Some? && s.agents[i].lease.Some?
                                  && s.agents[i].current.value.epoch == s.row.value.epoch == s.agents[i].lease.value.epoch
    ensures SameNumber(s, s')
  {
    if Acts(s, i) {
      assert RemembersNumber(s.row, s.agents[i]);
    }
  }

  /** Row number, cycle records and epoch unchanged; a process remembers what it did, nothing, or the row. */
  ghost predicate SameNumber(s: State, s': State) {
    && s'.cycles == s.cycles && Epoch(s'.row) == Epoch(s.row)
    && (s.row.Some? ==> s'.row.Some? && s'.row.value.cycleNumber == s.row.value.cycleNumber)
    && (s.row.None? ==> s'.row.None? || s'.row.value.cycleNumber == 0)
    && |s.agents| <= |s'.agents|
    && (forall j :: 0 <= j < |s.agents| ==> RemembersLikewise(s.row, s.agents[j], s'.agents[j]))
    && (forall j :: |s.agents| <= j < |s'.agents| ==> s'.agents[j].lease.Some? && s'.agents[j].current.None?)
  }

  predicate RemembersLikewise(row: Option<Row>, agent: Agent, agent': Agent) {
    && agent'.lease == agent.lease
    && (agent'.current == agent.current || agent'.current.None?
        || (row.Some? && agent'.current.value.cycleNumber == row.value.cycleNumber))
  }

  lemma SameNumberKeepsExact(s: State, s': State)
    requires ExactInv(s) && EpochInv(s) && SameNumber(s, s')
    ensures ExactInv(s')
  {
    forall j | 0 <= j < |s'.agents|
      ensures s'.agents[j].lease.Some? && RemembersNumber(s'.row, s'.agents[j])
    {
      if j < |s.agents| {
        assert RemembersNumber(s.row, s.agents[j]) && RemembersLikewise(s.row, s.agents[j], s'.agents[j]);
        assert AgentBounded(s.agents[j], Epoch(s.row));
      }
    }
  }

  lemma OperatorKeepsNumber(s: State, read: nat, command: O.OperatorCommand, s': State)
    requires s' == DoOperatorWrite(s, read, command)
    requires !StaleWrite(s, OperatorWrites(read, command)) && !OldNumber(s, OperatorWrites(read, command))
    ensures SameNumber(s, s')
  {
  }

  lemma AcquisitionKeepsExact(s: State, owner: O.RuntimeId, ttl: O.Time, s': State)
    requires ExactInv(s) && EpochInv(s) && s' == DoAcquire(s, owner, ttl)
    ensures ExactInv(s')
  {
    if s' != s {
      forall j | 0 <= j < |s'.agents| ensures s'.agents[j].lease.Some? && RemembersNumber(s'.row, s'.agents[j]) {
        if j < |s.agents| {
          assert RemembersNumber(s.row, s.agents[j]) && AgentBounded(s.agents[j], Epoch(s.row));
        }
      }
    }
  }

  lemma OtherStepsKeepNumber(s: State, step: Step, s': State)
    requires s' == Apply(s, step) && !WritesRecord(step) && !step.Acquire? && !step.Spawn?
    ensures SameNumber(s, s')
  {
    OtherStepsReadOnly(s, step, s');
    OtherStepsKeepEpoch(s, step, s');
    OtherStepsAddNobody(s, step, s');
    forall j | 0 <= j < |s.agents| ensures RemembersLikewise(s.row, s.agents[j], s'.agents[j]) {
      assert AgentFrom(s.row, s.agents[j], s'.agents[j]) && AgentFollows(s.agents[j], s'.agents[j], Epoch(s.row));
    }
  }

  lemma OtherStepsAddNobody(s: State, step: Step, s': State)
    requires s' == Apply(s, step) && !step.Acquire? && !step.Spawn?
    ensures |s'.agents| == |s.agents|
  {
  }

  lemma StepKeepsExact(s: State, step: Step, s': State)
    requires ExactInv(s) && EpochInv(s) && s' == Apply(s, step)
    requires !step.Spawn? && !StaleWrite(s, step) && !OldNumber(s, step)
    ensures ExactInv(s')
  {
    match step
    case Acquire(owner, ttl) => AcquisitionKeepsExact(s, owner, ttl, s');
    case Save(i, update) => SaveKeepsExact(s, i, update, s');
    case EndCycle(i, end) => EndCycleKeepsExact(s, i, end, s');
    case CommitAuthorization(i, r, verdict, plan, hooked) => AuthorizationKeepsExact(s, i, r, verdict, plan, hooked, s');
    case OperatorWrites(read, command) =>
      OperatorKeepsNumber(s, read, command, s');
      SameNumberKeepsExact(s, s');
    case _ =>
      OtherStepsKeepNumber(s, step, s');
      SameNumberKeepsExact(s, s');
  }

  lemma {:induction false} RunKeepsExact(limits: Limits, steps: seq<Step>)
    requires OnlyLeased(steps) && NoStaleWrite(Initial(limits), steps) && NoOldNumber(Initial(limits), steps)
    ensures ExactInv(Run(Initial(limits), steps))
  {
    if steps != [] {
      var front := steps[..|steps| - 1];
      FrontNotStale(Initial(limits), steps);
      assert forall n :: 0 <= n <= |front| ==> front[..n] == steps[..n];
      RunKeepsExact(limits, front);
      RunKeepsEpochs(limits, front);
      StepKeepsExact(Run(Initial(limits), front), steps[|steps| - 1], Run(Initial(limits), steps));
    }
  }

  ghost predicate AlwaysExact(s: State, steps: seq<Step>) {
    forall n :: 0 <= n <= |steps| ==> Exact(Run(s, steps[..n]))
  }

  lemma OldNumberBreaksExact(s: State, step: Step)
    requires Exact(s) && OldNumber(s, step)
    ensures !Exact(Apply(s, step))
  {
    var n, m := s.row.value.cycleNumber, Apply(s, step).row.value.cycleNumber;
    if UpTo(n) == UpTo(m) {
      UpToInjective(n, m);
      assert false;
    }
  }

  /**
    Leased controllers with operator commands interleaved anywhere: the cycle records are exactly 1..cycle_number
    throughout the run if and only if no accepted operator command saves a record with another cycle number.
   */
  lemma {:induction false} ExactExactlyWithoutOldNumbers(limits: Limits, steps: seq<Step>)
    requires OnlyLeased(steps) && NoStaleWrite(Initial(limits), steps)
    ensures AlwaysExact(Initial(limits), steps) <==> NoOldNumber(Initial(limits), steps)
  {
    var s0 := Initial(limits);
    if NoOldNumber(s0, steps) {
      forall n | 0 <= n <= |steps| ensures Exact(Run(s0, steps[..n])) {
        var prefix := steps[..n];
        assert forall k :: 0 <= k <= n ==> prefix[..k] == steps[..k];
        RunKeepsExact(limits, prefix);
      }
    }
    if AlwaysExact(s0, steps) {
      forall n | 0 <= n < |steps| ensures !OldNumber(Run(s0, steps[..n]), steps[n]) {
        assert steps[..n + 1][..n] == steps[..n];
        assert Exact(Run(s0, steps[..n + 1])) && Exact(Run(s0, steps[..n]));
        if OldNumber(Run(s0, steps[..n]), steps[n]) {
          OldNumberBreaksExact(Run(s0, steps[..n]), steps[n]);
        }
      }
    }
  }

  // ------------------------------------------------------------------ exactly, in every run

  function Number(row: Option<Row>): nat {
    if row.Some? then row.value.cycleNumber else 0
  }

  /** A save is accepted although its record has a smaller cycle number than the row. */
  predicate OldRecord(s: State, step: Step) {
    var write := RowWrite(s, step);
    && write.Some? && s.row.Some?
    && O.SaveRow(s.row, write.value.0, write.value.1, s.now).outcome.Saved?
    && write.value.0.cycleNumber < s.row.value.cycleNumber
  }

  predicate NoOldRecord(s: State, steps: seq<Step>) {
    forall n :: 0 <= n < |steps| ==> !OldRecord(Run(s, steps[..n]), steps[n])
  }

  /** A step that writes no record leaves the number alone; one that does leaves its record's number or the old one. */
  lemma NumberAfter(s: State, step: Step, s': State)
    requires s' == Apply(s, step)
    ensures
      var write := RowWrite(s, step);
      if write.Some? && s.row.Some? && O.SaveRow(s.row, write.value.0, write.value.1, s.now).outcome.Saved?
      then s'.row == Some(write.value.0)
      else Number(s'.row) == Number(s.row)
  {
    if !WritesRecord(step) {
      OtherStepsReadOnly(s, step, s');
    }
  }

  lemma CyclesOnlyGrow(s: State, step: Step, s': State)
    requires s' == Apply(s, step)
    ensures s.cycles <= s'.cycles
    ensures s'.cycles != s.cycles ==> step.EndCycle? && s'.cycles == s.cycles + {Number(s'.row)}
  {
  }

  lemma StepStaysExact(s: State, step: Step, s': State)
    requires CyclesInv(s, Number(s.row)) && !OldRecord(s, step) && s' == Apply(s, step)
    ensures CyclesInv(s', Number(s'.row))
  {
    var m := Number(s.row);
    NumberAfter(s, step, s');
    CyclesOnlyGrow(s, step, s');
    if step.EndCycle? {
      var m' := EndCycleKeepsCycles(s, step.i, step.end, m, s');
      if m' == m + 1 {
        assert m' in s'.cycles && m' !in s.cycles;
      }
    } else if WritesRecord(step) {
      SavesKeepCycles(s, step, m, s');
    } else {
      OtherStepsKeepCycles(s, step, m, s');
    }
  }

  lemma {:induction false} RunStaysExact(limits: Limits, steps: seq<Step>)
    requires NoOldRecord(Initial(limits), steps)
    ensures CyclesInv(Run(Initial(limits), steps), Number(Run(Initial(limits), steps).row))
  {
    if steps != [] {
      var front := steps[..|steps| - 1];
      assert forall n :: 0 <= n <= |front| ==> front[..n] == steps[..n];
      RunStaysExact(limits, front);
      StepStaysExact(Run(Initial(limits), front), steps[|steps| - 1], Run(Initial(limits), steps));
    }
  }

  lemma OldRecordBreaksExact(s: State, step: Step)
    requires Exact(s) && OldRecord(s, step)
    ensures !Exact(Apply(s, step))
  {
    var s' := Apply(s, step);
    NumberAfter(s, step, s');
    CyclesOnlyGrow(s, step, s');
    assert Number(s.row) in s.cycles;
  }

  /**
    In every run, leased or not: the cycle records are exactly 1..cycle_number throughout if and only if no save is
    accepted whose record has a smaller cycle number than the row it replaces.
   */
  lemma {:induction false} ExactExactlyWithoutOldRecords(limits: Limits, steps: seq<Step>)
    ensures AlwaysExact(Initial(limits), steps) <==> NoOldRecord(Initial(limits), steps)
  {
    var s0 := Initial(limits);
    if NoOldRecord(s0, steps) {
      forall n | 0 <= n <= |steps| ensures Exact(Run(s0, steps[..n])) {
        var prefix := steps[..n];
        assert forall k :: 0 <= k <= n ==> prefix[..k] == steps[..k];
        RunStaysExact(limits, prefix);
      }
    }
    if AlwaysExact(s0, steps) {
      forall n | 0 <= n < |steps| ensures !OldRecord(Run(s0, steps[..n]), steps[n]) {
        assert steps[..n + 1][..n] == steps[..n];
        assert Exact(Run(s0, steps[..n + 1])) && Exact(Run(s0, steps[..n]));
        if OldRecord(Run(s0, steps[..n]), steps[n]) {
          OldRecordBreaksExact(Run(s0, steps[..n]), steps[n]);
        }
      }
    }
  }
}
