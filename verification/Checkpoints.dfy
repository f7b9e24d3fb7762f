/** What a checkpoint of a run is for: the phase it leaves is what a later step minds. */
module Checkpoints {
  import opened Wrappers
  import opened Runs
  import opened Fencing
  import opened EndStates
  import opened Restart
  import opened Liveness
  import O = Orchestration
  import T = Statements

  /** The save a process attempts is accepted by the row. */
  predicate Accepts(s: State, i: nat, record: Row) {
    i < |s.agents| && O.SaveRow(s.row, record, GuardOf(s.agents[i].lease), s.now).outcome.Saved?
  }

  predicate SavedFrom(current: Row, row: Option<Row>, state: O.RunState, phase: O.CyclePhase) {
    && row.Some? && T.SameLease(current, row.value) && T.SameReasons(current, row.value)
    && row.value.cycleNumber == current.cycleNumber && row.value.state == state
    && row.value.currentPhase == phase && row.value.lastPhase == O.AtPhase(phase)
  }

  /** A save of a run leaves its phase in row and process alike; onto a terminal row a checkpoint goes on with what is there. */
  lemma CheckpointIsSaved(s: State, i: nat, phase: O.CyclePhase)
    requires Doing(s, i, Stepping) && s.agents[i].current.Some? && s.row.Some?
    ensures
      var s', current := Apply(s, Save(i, O.Checkpoint(phase))), s.agents[i].current.value;
      && i < |s'.agents| && s'.db == s.db && s'.cycles == s.cycles
      && (Accepts(s, i, current) ==>
            && SavedFrom(current, s'.row, O.Running, phase) && Doing(s', i, Stepping) && s'.agents[i].current == s'.row)
      && (!Accepts(s, i, current) ==>
            && s'.row == s.row
            && (if O.Terminal(s.row.value.state) then Doing(s', i, Stepping) && s'.agents[i].current == s.row
                else Doing(s', i, Idle) && s'.agents[i].current.None?))
  {
    T.UpdateLeaves(s.agents[i].current.value, O.Checkpoint(phase));
  }

  /** A plan keeps the state it was read with, and is refused onto every row that does not accept it. */
  lemma PlanIsSaved(s: State, i: nat)
    requires Doing(s, i, Stepping) && s.agents[i].current.Some? && s.row.Some?
    ensures
      var s', current := Apply(s, Save(i, O.PlanExperiment)), s.agents[i].current.value;
      && i < |s'.agents|
      && (Accepts(s, i, current) ==>
            && SavedFrom(current, s'.row, current.state, O.ExperimentPlanned) && s'.agents[i].current == s'.row)
      && (!Accepts(s, i, current) ==> s'.row == s.row && Doing(s', i, Idle) && s'.agents[i].current.None?)
  {
    T.UpdateLeaves(s.agents[i].current.value, O.PlanExperiment);
  }

  /** A process may save inside its step, and fail the run on what the same transaction read, once it loaded a live run. */
  lemma OtherSavesDoNothing(s: State, i: nat, update: O.RowUpdate)
    requires !(Acts(s, i) && s.agents[i].current.Some?
               && (if update.StopForFailure? then s.agents[i].doing.Loaded? && O.Runnable(s.agents[i].current.value.state)
                   else s.agents[i].doing.Stepping? && !update.PersistAttempt?))
    ensures Apply(s, Save(i, update)) == s
  {
  }

  /** A failure stop that is accepted fails the run and lets the process go; one that is refused only lets it go. */
  lemma FailureStopIsSaved(s: State, i: nat, note: string)
    requires Acts(s, i) && s.agents[i].doing.Loaded? && s.agents[i].current.Some? && s.row.Some?
    requires O.Runnable(s.agents[i].current.value.state)
    ensures
      var s', current := Apply(s, Save(i, O.StopForFailure(note))), s.agents[i].current.value;
      && Doing(s', i, Idle) && s'.db == s.db
      && (Accepts(s, i, current) ==>
            && s'.row.Some? && T.SameLease(current, s'.row.value) && s'.row.value.state.FailedOperational?
            && s'.row.value.stopReason == Some(O.OperationalFailure) && s'.row.value.currentPhase == current.currentPhase)
      && (!Accepts(s, i, current) ==> s'.row == s.row)
  {
    T.UpdateLeaves(s.agents[i].current.value, O.StopForFailure(note));
  }

  /** Between a save and a reload a process acts on what it saved; a reload shows it the row as it is. */
  lemma ReloadShowsTheRow(s: State, i: nat)
    requires Doing(s, i, Stepping) && s.row.Some?
    ensures
      var s' := Apply(s, Reload(i));
      s' == s.(agents := s.agents[i := s.agents[i].(current := s.row)])
  {
  }

  // ------------------------------------------------------------------ DISPATCHING stops steps

  predicate AtDispatching(row: Option<Row>) {
    row.Some? && row.value.currentPhase.PhaseDispatching?
  }

  /** An accepted save takes the phase away from DISPATCHING. */
  predicate MovesPhase(s: State, step: Step) {
    var write := RowWrite(s, step);
    && write.Some? && O.SaveRow(s.row, write.value.0, write.value.1, s.now).outcome.Saved?
    && !write.value.0.currentPhase.PhaseDispatching?
  }

  ghost predicate PhaseMoved(s: State, steps: seq<Step>) {
    exists n :: 0 <= n < |steps| && MovesPhase(Run(s, steps[..n]), steps[n])
  }

  predicate EntersByStep(steps: seq<Step>, j: nat) {
    forall n :: 0 <= n < |steps| && steps[n].Load? && steps[n].i == j ==> steps[n].entry.StepEntry?
  }

  /** Out of its step, and about to check nothing but a record at DISPATCHING, or one no step goes on from. */
  predicate Held(agent: Agent) {
    agent.alive ==>
      || agent.doing.Idle? || agent.doing.Halting?
      || (agent.doing.Loaded? && agent.doing.entry.StepEntry? && AtDispatching(agent.current))
  }

  lemma PhaseStays(s: State, step: Step, s': State)
    requires AtDispatching(s.row) && s' == Apply(s, step) && !MovesPhase(s, step)
    ensures AtDispatching(s'.row)
  {
    RowAfter(s, step, s');
  }

  lemma HeldEntering(s: State, step: Step, s': State, j: nat)
    requires !NeedsStepping(step) && AtDispatching(s.row) && s' == Apply(s, step) && j < |s.agents| && Held(s.agents[j])
    requires step.Load? && step.i == j ==> step.entry.StepEntry?
    ensures j < |s'.agents| && Held(s'.agents[j])
  {
  }

  lemma HeldStays(s: State, step: Step, s': State, j: nat)
    requires AtDispatching(s.row) && s' == Apply(s, step) && (j < |s.agents| ==> Held(s.agents[j]))
    requires step.Load? && step.i == j ==> step.entry.StepEntry?
    ensures j < |s'.agents| ==> Held(s'.agents[j])
  {
    NewProcessesAreIdle(s, step, s');
    if j < |s.agents| {
      if !NeedsStepping(step) {
        HeldEntering(s, step, s', j);
      } else if step.i == j {
        ExecutorIsIdle(s, step);
      } else {
        OthersExecuteElsewhere(s, step, s', j);
      }
    }
  }

  lemma {:induction false} HeldWhileDispatching(s: State, steps: seq<Step>, j: nat)
    requires AtDispatching(s.row) && EntersByStep(steps, j) && (j < |s.agents| ==> Held(s.agents[j]))
    requires !PhaseMoved(s, steps)
    ensures AtDispatching(Run(s, steps).row) && (j < |Run(s, steps).agents| ==> Held(Run(s, steps).agents[j]))
  {
    if steps != [] {
      var n := |steps| - 1;
      var front := steps[..n];
      assert forall k :: 0 <= k < n ==> front[..k] == steps[..k] && front[k] == steps[k];
      HeldWhileDispatching(s, front, j);
      assert !MovesPhase(Run(s, front), steps[n]);
      PhaseStays(Run(s, front), steps[n], Run(s, steps));
      HeldStays(Run(s, front), steps[n], Run(s, steps), j);
    }
  }

  /**
    After an accepted checkpoint at DISPATCHING, with everybody else at work: a process that was not in the run yet, or was
    idle, and enters by steps only, gets past its checks only once an accepted save has moved the phase.
   */
  lemma {:induction false} DispatchingCheckpointHaltsSteps(s: State, i: nat, steps: seq<Step>, j: nat)
    requires Doing(s, i, Stepping) && s.agents[i].current.Some? && Accepts(s, i, s.agents[i].current.value)
    requires j < |s.agents| ==> Doing(s, j, Idle)
    requires EntersByStep(steps, j)
    ensures
      var s' := Apply(s, Save(i, O.Checkpoint(O.PhaseDispatching)));
      PhaseMoved(s', steps) || (j < |Run(s', steps).agents| ==> BeforeChecks(Run(s', steps).agents[j]))
  {
    var s' := Apply(s, Save(i, O.Checkpoint(O.PhaseDispatching)));
    CheckpointIsSaved(s, i, O.PhaseDispatching);
    if !PhaseMoved(s', steps) {
      assert j < |s'.agents| ==> Held(s'.agents[j]);
      HeldWhileDispatching(s', steps, j);
    }
  }

  /** An idle process whose step finds a live row at DISPATCHING halts, and its save, when it holds the row, fails the run. */
  lemma {:induction false} StepAtDispatchingFailsTheRun(s: State, i: nat, note: string)
    requires Doing(s, i, Idle) && AtDispatching(s.row) && O.Runnable(s.row.value.state)
    ensures
      var checked := Apply(Apply(s, Load(i, StepEntry)), Check(i));
      var stopped := Apply(checked, EndCycle(i, O.StopEnd(O.OperationalFailure, note, false, None)));
      && Doing(checked, i, Halting) && SameExecution(s, stopped)
      && (LeaseHeld(s.row, s.agents[i].lease) ==> stopped.row.Some? && stopped.row.value.state.FailedOperational?)
  {
    var loaded := Apply(s, Load(i, StepEntry));
    assert loaded == Remember(s, i, s.row, Loaded(StepEntry));
    assert Apply(loaded, Check(i)) == Turn(loaded, i, Halting);
  }
}
