/**
  Fail-closed restart: while some attempt is DISPATCHING or UNKNOWN_OUTCOME, no newly entered controller reaches the
  Worker, whether its dispatcher has crashed or is still at work.
 */
module Restart {
  import opened Wrappers
  import opened Store
  import opened Runs
  import O = Orchestration

  /** A live process has not passed the checks of its entry point. */
  predicate BeforeChecks(agent: Agent) {
    agent.alive ==> agent.doing.Idle? || agent.doing.Loaded? || agent.doing.Halting?
  }

  /** An attempt is open and nobody is on its way to the Worker, as after a crash of every process. */
  ghost predicate Quiet(s: State) {
    UnknownOpen(s.db) && forall i :: 0 <= i < |s.agents| ==> BeforeChecks(s.agents[i])
  }

  /** Consumption of model calls and new experiments is all that may still be written. */
  predicate SameExecution(s: State, s': State) {
    && s'.db.attempts == s.db.attempts && s'.db.results == s.db.results
    && s'.db.observations == s.db.observations && s'.db.audits == s.db.audits
    && s'.past.cleared == s.past.cleared && s'.past.passed == s.past.passed
    && s'.past.invoked == s.past.invoked && s'.past.created == s.past.created
  }

  predicate NeedsStepping(step: Step) {
    step.ReadExperiment? || step.CommitAuthorization? || step.ReadAttempt? || step.CommitUnknown? || step.Reserve?
    || step.CommitDispatch? || step.CheckLease? || step.Invoke? || step.CommitOutcome? || step.LoseOutcome? || step.CommitIngestion?
  }

  /** Executor steps need a process that passed its checks. */
  lemma ExecutorIsIdle(s: State, step: Step)
    requires NeedsStepping(step) && (step.i < |s.agents| ==> BeforeChecks(s.agents[step.i]))
    ensures Apply(s, step) == s
  {
  }

  lemma OthersExecuteElsewhere(s: State, step: Step, s': State, j: nat)
    requires NeedsStepping(step) && step.i != j && s' == Apply(s, step) && j < |s.agents|
    ensures j < |s'.agents| && s'.agents[j] == s.agents[j]
  {
  }

  lemma EntriesChangeNothing(s: State, step: Step, s': State)
    requires s' == Apply(s, step) && !NeedsStepping(step)
    ensures SameExecution(s, s')
  {
  }

  lemma NewProcessesAreIdle(s: State, step: Step, s': State)
    requires s' == Apply(s, step)
    ensures |s.agents| <= |s'.agents|
    ensures forall j :: |s.agents| <= j < |s'.agents| ==> s'.agents[j].doing.Idle?
  {
  }

  // ------------------------------------------------------------------ passing the entry checks

  lemma EntryKeepsBefore(s: State, step: Step, s': State, j: nat)
    requires !NeedsStepping(step) && s' == Apply(s, step) && j < |s.agents| && BeforeChecks(s.agents[j])
    requires UnknownOpen(s.db) || step != Check(j)
    ensures j < |s'.agents| && BeforeChecks(s'.agents[j])
  {
  }

  /** Nothing but its own checks, with no attempt open, brings a process past them. */
  lemma StepKeepsBefore(s: State, step: Step, s': State, j: nat)
    requires s' == Apply(s, step) && (j < |s.agents| ==> BeforeChecks(s.agents[j]))
    requires UnknownOpen(s.db) || step != Check(j)
    ensures j < |s'.agents| ==> BeforeChecks(s'.agents[j])
  {
    NewProcessesAreIdle(s, step, s');
    if j < |s.agents| {
      if !NeedsStepping(step) {
        EntryKeepsBefore(s, step, s', j);
      } else if step.i == j {
        ExecutorIsIdle(s, step);
      } else {
        OthersExecuteElsewhere(s, step, s', j);
      }
    }
  }

  ghost predicate CheckedWhileSettled(s: State, steps: seq<Step>, j: nat) {
    exists n :: 0 <= n < |steps| && steps[n] == Check(j) && !UnknownOpen(Run(s, steps[..n]).db)
  }

  /** In any run: a process that came past its entry checks made them at a moment when no attempt was open. */
  lemma {:induction false} EnteringNeedsSettledAttempts(s: State, steps: seq<Step>, j: nat)
    requires j < |s.agents| ==> BeforeChecks(s.agents[j])
    requires j < |Run(s, steps).agents| && !BeforeChecks(Run(s, steps).agents[j])
    ensures CheckedWhileSettled(s, steps, j)
  {
    if steps != [] {
      var front, step := steps[..|steps| - 1], steps[|steps| - 1];
      var before := Run(s, front);
      if j < |before.agents| && !BeforeChecks(before.agents[j]) {
        EnteringNeedsSettledAttempts(s, front, j);
        var n :| 0 <= n < |front| && front[n] == Check(j) && !UnknownOpen(Run(s, front[..n]).db);
        assert front[..n] == steps[..n] && steps[n] == Check(j);
      } else {
        if UnknownOpen(before.db) || step != Check(j) {
          StepKeepsBefore(before, step, Run(s, steps), j);
        }
        assert steps[|front|] == step && steps[..|front|] == front;
      }
    }
  }

  // ------------------------------------------------------------------ open attempts with processes at work

  /** Some attempt is open at every moment; not necessarily the same one. */
  ghost predicate OpenThroughout(s: State, steps: seq<Step>) {
    forall n :: 0 <= n <= |steps| ==> UnknownOpen(Run(s, steps[..n]).db)
  }

  /** While attempts are open nobody gets past the entry checks, whatever those do who are past them already. */
  lemma NobodyEntersWhileOpen(s: State, steps: seq<Step>, j: nat)
    requires OpenThroughout(s, steps) && (j < |s.agents| ==> BeforeChecks(s.agents[j]))
    ensures j < |Run(s, steps).agents| ==> BeforeChecks(Run(s, steps).agents[j])
  {
    if j < |Run(s, steps).agents| && !BeforeChecks(Run(s, steps).agents[j]) {
      EnteringNeedsSettledAttempts(s, steps, j);
      assert false;
    }
  }

  /**
    While attempts are open, in every run with any processes at work: whoever authorizes, dispatches, calls or ingests was
    past its entry checks from the start.
   */
  lemma OnlyEnteredProcessesAct(s: State, steps: seq<Step>, n: nat)
    requires n < |steps| && NeedsStepping(steps[n]) && OpenThroughout(s, steps[..n])
    requires Apply(Run(s, steps[..n]), steps[n]) != Run(s, steps[..n])
    ensures steps[n].i < |s.agents| && !BeforeChecks(s.agents[steps[n].i])
  {
    var j := steps[n].i;
    if j < |s.agents| ==> BeforeChecks(s.agents[j]) {
      NobodyEntersWhileOpen(s, steps[..n], j);
      ExecutorIsIdle(Run(s, steps[..n]), steps[n]);
    }
  }

  // ------------------------------------------------------------------ nobody at work

  lemma StepStaysQuiet(s: State, step: Step, s': State)
    requires Quiet(s) && s' == Apply(s, step)
    ensures Quiet(s') && SameExecution(s, s')
  {
    if NeedsStepping(step) {
      assert step.i < |s.agents| ==> BeforeChecks(s.agents[step.i]);
      ExecutorIsIdle(s, step);
    } else {
      EntriesChangeNothing(s, step, s');
      forall j | 0 <= j < |s'.agents| ensures BeforeChecks(s'.agents[j]) {
        assert j < |s.agents| ==> BeforeChecks(s.agents[j]);
        StepKeepsBefore(s, step, s', j);
      }
    }
  }

  /**
    After a crash that left an attempt open, no continuation whatsoever (new processes, any entry point, operator
    commands, takeovers) authorizes, dispatches, invokes or ingests anything: the attempt stays open for a human.
   */
  lemma {:induction false} OpenAttemptStopsTheRun(s: State, steps: seq<Step>)
    requires Quiet(s)
    ensures Quiet(Run(s, steps)) && SameExecution(s, Run(s, steps))
  {
    if steps != [] {
      var front := steps[..|steps| - 1];
      OpenAttemptStopsTheRun(s, front);
      StepStaysQuiet(Run(s, front), steps[|steps| - 1], Run(s, steps));
    }
  }

  /** The steps that kill every process. */
  function CrashAll(n: nat): (steps: seq<Step>)
    ensures |steps| == n
  {
    if n == 0 then [] else CrashAll(n - 1) + [Crash(n - 1)]
  }

  lemma {:induction false} CrashesStopEverybody(s: State, n: nat)
    requires n <= |s.agents|
    ensures
      var s' := Run(s, CrashAll(n));
      && |s'.agents| == |s.agents| && s'.db == s.db && s'.past == s.past
      && forall i :: 0 <= i < n ==> !s'.agents[i].alive
  {
    if n > 0 {
      CrashesStopEverybody(s, n - 1);
      assert CrashAll(n)[..n - 1] == CrashAll(n - 1);
    }
  }

  /** Whatever state an open attempt was reached in, killing all processes makes the run quiet for good. */
  lemma {:induction false} CrashThenRestartNeverInvokes(s: State, steps: seq<Step>)
    requires UnknownOpen(s.db)
    ensures SameExecution(s, Run(Run(s, CrashAll(|s.agents|)), steps))
  {
    CrashesStopEverybody(s, |s.agents|);
    var stopped := Run(s, CrashAll(|s.agents|));
    assert Quiet(stopped);
    OpenAttemptStopsTheRun(stopped, steps);
  }

  /** A process entering a run with an open attempt, by any entry point, fails the run and calls nobody. */
  lemma {:induction false} EntryFailsTheRun(s: State, i: nat, entry: Entry, note: string)
    requires UnknownOpen(s.db) && Doing(s, i, Idle)
    requires s.row.Some? && O.Runnable(s.row.value.state) && LeaseHeld(s.row, s.agents[i].lease)
    ensures
      var checked := Apply(Apply(s, Load(i, entry)), Check(i));
      var stopped := Apply(checked, EndCycle(i, O.StopEnd(O.OperationalFailure, note, false, None)));
      && Doing(checked, i, Halting)
      && stopped.row.Some? && stopped.row.value.state.FailedOperational?
      && stopped.cycles == s.cycles + {s.row.value.cycleNumber + 1}
      && SameExecution(s, stopped)
  {
    var loaded := Apply(s, Load(i, entry));
    assert loaded == Remember(s, i, s.row, Loaded(entry));
    var checked := Apply(loaded, Check(i));
    assert checked == Turn(loaded, i, Halting);
  }
}
