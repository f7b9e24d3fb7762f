/**
  Who can still reach the Worker. The dispatch transaction never looks at the orchestration row, and the lease check does
  not look at its state: a run that has ended stops its processes only at their next entry checks.
 */
module LateCalls {
  import opened Wrappers
  import opened Ledger
  import opened Execution
  import opened Runs
  import opened Restart
  import opened EndStates
  import O = Orchestration

  // ------------------------------------------------------------------ getting under way

  /** Not past its entry checks, and not about to pass them with a record read while the run was still live. */
  predicate Stopped(agent: Agent) {
    agent.alive ==>
      || agent.doing.Idle? || agent.doing.Halting?
      || (agent.doing.Loaded? && (agent.current.Some? ==> !O.Runnable(agent.current.value.state)))
  }

  predicate Live(row: Option<Row>) {
    row.Some? && O.Runnable(row.value.state)
  }

  /** Paused, blocked, waiting for a human, or ended. */
  predicate Parked(row: Option<Row>) {
    row.Some? && !O.Runnable(row.value.state)
  }

  predicate LoadsLive(s: State, step: Step, j: nat) {
    step.Load? && step.i == j && Live(s.row)
  }

  lemma EntryKeepsStopped(s: State, step: Step, s': State, j: nat)
    requires !NeedsStepping(step) && s' == Apply(s, step) && j < |s.agents| && Stopped(s.agents[j])
    requires !LoadsLive(s, step, j)
    ensures j < |s'.agents| && Stopped(s'.agents[j])
  {
  }

  /** Nothing but its own load of a live run brings a process under way. */
  lemma StepKeepsStopped(s: State, step: Step, s': State, j: nat)
    requires s' == Apply(s, step) && (j < |s.agents| ==> Stopped(s.agents[j])) && !LoadsLive(s, step, j)
    ensures j < |s'.agents| ==> Stopped(s'.agents[j])
  {
    NewProcessesAreIdle(s, step, s');
    if j < |s.agents| {
      if !NeedsStepping(step) {
        EntryKeepsStopped(s, step, s', j);
      } else if step.i == j {
        ExecutorIsIdle(s, step);
      } else {
        OthersExecuteElsewhere(s, step, s', j);
      }
    }
  }

  ghost predicate LoadedLive(s: State, steps: seq<Step>, j: nat) {
    exists n :: 0 <= n < |steps| && LoadsLive(Run(s, steps[..n]), steps[n], j)
  }

  /** In any run: a process that got under way loaded the run at a moment when it was READY or RUNNING. */
  lemma {:induction false} StartingNeedsLiveRun(s: State, steps: seq<Step>, j: nat)
    requires j < |s.agents| ==> Stopped(s.agents[j])
    requires j < |Run(s, steps).agents| && !Stopped(Run(s, steps).agents[j])
    ensures LoadedLive(s, steps, j)
  {
    if steps != [] {
      var front, step := steps[..|steps| - 1], steps[|steps| - 1];
      var before := Run(s, front);
      if j < |before.agents| && !Stopped(before.agents[j]) {
        StartingNeedsLiveRun(s, front, j);
        var n :| 0 <= n < |front| && LoadsLive(Run(s, front[..n]), front[n], j);
        assert front[..n] == steps[..n] && LoadsLive(Run(s, steps[..n]), steps[n], j);
      } else {
        if !LoadsLive(before, step, j) {
          StepKeepsStopped(before, step, Run(s, steps), j);
        }
        assert LoadsLive(Run(s, steps[..|front|]), steps[|front|], j);
      }
    }
  }

  ghost predicate ParkedThroughout(s: State, steps: seq<Step>) {
    forall n :: 0 <= n <= |steps| ==> Parked(Run(s, steps[..n]).row)
  }

  /** While the run is parked nobody gets under way, whatever those do who are under way already. */
  lemma NobodyStartsWhileParked(s: State, steps: seq<Step>, j: nat)
    requires ParkedThroughout(s, steps) && (j < |s.agents| ==> Stopped(s.agents[j]))
    ensures j < |Run(s, steps).agents| ==> Stopped(Run(s, steps).agents[j])
  {
    if j < |Run(s, steps).agents| && !Stopped(Run(s, steps).agents[j]) {
      assert forall n :: 0 <= n < |steps| ==> Parked(Run(s, steps[..n]).row);
      StartingNeedsLiveRun(s, steps, j);
      assert false;
    }
  }

  /**
    While a run is paused, blocked, waiting or ended, with any processes at work: whoever authorizes, dispatches, calls or
    ingests was under way from the start.
   */
  lemma OnlyStartedProcessesAct(s: State, steps: seq<Step>, n: nat)
    requires n < |steps| && NeedsStepping(steps[n]) && ParkedThroughout(s, steps[..n])
    requires Apply(Run(s, steps[..n]), steps[n]) != Run(s, steps[..n])
    ensures steps[n].i < |s.agents| && !Stopped(s.agents[steps[n].i])
  {
    var j := steps[n].i;
    if j < |s.agents| ==> Stopped(s.agents[j]) {
      NobodyStartsWhileParked(s, steps[..n], j);
      ExecutorIsIdle(Run(s, steps[..n]), steps[n]);
    }
  }

  // ------------------------------------------------------------------ ended runs

  /** Leases and the row are as they were, but for a release. */
  ghost predicate Winding(s: State, s': State) {
    && Ended(s'.row) && |s.agents| <= |s'.agents|
    && forall j :: 0 <= j < |s.agents| ==>
         && s'.agents[j].lease == s.agents[j].lease
         && (LeaseHeld(s'.row, s.agents[j].lease) ==> LeaseHeld(s.row, s.agents[j].lease))
  }

  lemma StepKeepsWinding(s0: State, s: State, step: Step, s': State)
    requires Ended(s0.row) && Winding(s0, s) && s' == Apply(s, step)
    ensures Winding(s0, s')
  {
    StepKeepsEndState(s, step, s');
    NewProcessesAreIdle(s, step, s');
    forall j | 0 <= j < |s0.agents| ensures s'.agents[j].lease == s.agents[j].lease {
      LeaseNeverChanges(s, step, s', j);
    }
  }

  lemma {:induction false} EndedRunsWindDown(s: State, steps: seq<Step>)
    requires Ended(s.row)
    ensures Winding(s, Run(s, steps))
  {
    if steps != [] {
      var front := steps[..|steps| - 1];
      EndedRunsWindDown(s, front);
      StepKeepsWinding(s, Run(s, front), steps[|steps| - 1], Run(s, steps));
    }
  }

  lemma EndedIsParkedThroughout(s: State, steps: seq<Step>)
    requires Ended(s.row)
    ensures ParkedThroughout(s, steps)
  {
    forall n | 0 <= n <= |steps| ensures Parked(Run(s, steps[..n]).row) {
      EndedRunsWindDown(s, steps[..n]);
    }
  }

  /**
    After a run has ended, in every continuation, whoever still authorizes, dispatches, calls or ingests was past its
    entry checks when the run ended; and whoever still passes the lease check was unleased or held the row then.
   */
  lemma {:induction false} OnlyLateProcessesAct(s: State, steps: seq<Step>, n: nat)
    requires Ended(s.row) && n < |steps| && NeedsStepping(steps[n])
    requires Apply(Run(s, steps[..n]), steps[n]) != Run(s, steps[..n])
    ensures steps[n].i < |s.agents| && !Stopped(s.agents[steps[n].i])
    ensures Apply(Run(s, steps[..n]), steps[n]).past.passed != Run(s, steps[..n]).past.passed ==>
              LeaseHeld(s.row, s.agents[steps[n].i].lease)
  {
    EndedIsParkedThroughout(s, steps[..n]);
    OnlyStartedProcessesAct(s, steps, n);
    EndedRunsWindDown(s, steps[..n]);
    PassNeedsLease(Run(s, steps[..n]), steps[n]);
  }

  lemma PassNeedsLease(s: State, step: Step)
    requires NeedsStepping(step)
    ensures Apply(s, step).past.passed != s.past.passed ==>
              step.i < |s.agents| && LeaseHeld(s.row, s.agents[step.i].lease)
  {
  }

  ghost predicate AllStopped(agents: seq<Agent>) {
    forall j :: 0 <= j < |agents| ==> Stopped(agents[j])
  }

  /** A parked run with nobody under way executes nothing while it stays parked. */
  lemma {:induction false} ParkedRunStaysQuiet(s: State, steps: seq<Step>)
    requires ParkedThroughout(s, steps) && AllStopped(s.agents)
    ensures SameExecution(s, Run(s, steps)) && AllStopped(Run(s, steps).agents)
  {
    forall j | 0 <= j < |Run(s, steps).agents| ensures Stopped(Run(s, steps).agents[j]) {
      assert j < |s.agents| ==> Stopped(s.agents[j]);
      NobodyStartsWhileParked(s, steps, j);
    }
    if steps != [] {
      var front, step := steps[..|steps| - 1], steps[|steps| - 1];
      assert forall n :: 0 <= n <= |front| ==> front[..n] == steps[..n];
      ParkedRunStaysQuiet(s, front);
      if NeedsStepping(step) {
        assert step.i < |Run(s, front).agents| ==> Stopped(Run(s, front).agents[step.i]);
        ExecutorIsIdle(Run(s, front), step);
      } else {
        EntriesChangeNothing(Run(s, front), step, Run(s, steps));
      }
    }
  }

  /** When the run has ended and nobody is past its entry checks, no continuation dispatches, calls or ingests anything. */
  lemma EndedRunStaysQuiet(s: State, steps: seq<Step>)
    requires Ended(s.row) && AllStopped(s.agents)
    ensures SameExecution(s, Run(s, steps))
  {
    EndedIsParkedThroughout(s, steps);
    ParkedRunStaysQuiet(s, steps);
  }

  // ------------------------------------------------------------------ stopped runs

  predicate NoResume(steps: seq<Step>) {
    forall n :: 0 <= n < |steps| && steps[n].OperatorWrites? ==> !steps[n].command.ResumeRun?
  }

  /** The only saves a parked run still sees are operators' and the failure stop of a process halted at its checks. */
  lemma ParkedSaves(s: State, step: Step, s': State)
    requires Parked(s.row) && AllStopped(s.agents) && s' == Apply(s, step)
    requires step.OperatorWrites? ==> !step.command.ResumeRun?
    ensures Parked(s'.row)
  {
    if NeedsStepping(step) {
      assert step.i < |s.agents| ==> Stopped(s.agents[step.i]);
      ExecutorIsIdle(s, step);
    } else {
      EntrySavesPark(s, step, s');
    }
  }

  lemma EntrySavesPark(s: State, step: Step, s': State)
    requires Parked(s.row) && AllStopped(s.agents) && s' == Apply(s, step) && !NeedsStepping(step)
    requires step.OperatorWrites? ==> !step.command.ResumeRun?
    ensures Parked(s'.row)
  {
    assert step.Save? && step.i < |s.agents| ==> Stopped(s.agents[step.i]);
    assert step.EndCycle? && step.i < |s.agents| ==> Stopped(s.agents[step.i]);
  }

  lemma {:induction false} NoResumeStaysParked(s: State, steps: seq<Step>)
    requires Parked(s.row) && AllStopped(s.agents) && NoResume(steps)
    ensures ParkedThroughout(s, steps)
  {
    if steps == [] {
      assert steps[..0] == steps;
    } else {
      var front := steps[..|steps| - 1];
      NoResumeStaysParked(s, front);
      ParkedRunStaysQuiet(s, front);
      assert front[..|front|] == front;
      ParkedSaves(Run(s, front), steps[|steps| - 1], Run(s, steps));
      forall n | 0 <= n <= |steps| ensures Parked(Run(s, steps[..n]).row) {
        assert steps[..n] == if n <= |front| then front[..n] else steps;
      }
    }
  }

  /**
    A run that is paused, blocked, waiting or ended, with nobody past its entry checks, authorizes, dispatches, calls and
    ingests nothing in any continuation in which no operator resumes it.
   */
  lemma ParkedRunWaitsForResume(s: State, steps: seq<Step>)
    requires Parked(s.row) && AllStopped(s.agents) && NoResume(steps)
    ensures Parked(Run(s, steps).row) && AllStopped(Run(s, steps).agents) && SameExecution(s, Run(s, steps))
  {
    NoResumeStaysParked(s, steps);
    assert steps[..|steps|] == steps;
    ParkedRunStaysQuiet(s, steps);
  }

  // ------------------------------------------------------------------ exactly who can call

  /** The steps by which process `j` dispatches, from reading an attempt to calling the Worker. */
  predicate DispatchStep(step: Step, j: nat) {
    (step.ReadAttempt? || step.Reserve? || step.CommitDispatch? || step.CheckLease? || step.Invoke?) && step.i == j
  }

  predicate OwnDispatch(steps: seq<Step>, j: nat) {
    forall n :: 0 <= n < |steps| ==> DispatchStep(steps[n], j)
  }

  predicate TicketFor(s: State, ticket: nat, r: RequestId) {
    ticket < |s.past.cleared| && s.past.cleared[ticket].request == r
  }

  /** Process `j` has just called the Worker for `r`. */
  predicate Called(s: State, j: nat, r: RequestId) {
    Acts(s, j) && s.agents[j].doing.Returned? && TicketFor(s, s.agents[j].doing.ticket, r)
  }

  /** The dispatch transaction of an attempt would commit. */
  predicate Dispatchable(s: State, r: RequestId)
    requires r in s.db.attempts
  {
    && s.db.attempts[r].budget in s.limits.issued
    && var amount := RequestAmount(s.db.ledger, s.limits, s.db.attempts[r]);
       amount.Some? && BeginDispatch(s.db, s.limits, r, amount.value).Some?
  }

  predicate Startable(s: State, r: RequestId) {
    r in s.db.attempts && s.db.attempts[r].state.Authorized? && !Locked(s, r) && Dispatchable(s, r)
  }

  /** Back in its step after a refused dispatch, process `j` could start on `r`. */
  predicate StartableAfter(s: State, j: nat, r: RequestId)
    requires j < |s.agents|
  {
    Startable(Turn(s, j, Stepping), r)
  }

  /** Process `j` holds the row or needs no lease, and stands where its own dispatch steps lead to a call for `r`. */
  predicate CanCall(s: State, j: nat, r: RequestId) {
    Acts(s, j)
    && match s.agents[j].doing
       case Confirmed(ticket) => TicketFor(s, ticket, r)
       case Cleared(ticket) => LeaseHeld(s.row, s.agents[j].lease) && TicketFor(s, ticket, r)
       case Reserving(q, amount) =>
         && LeaseHeld(s.row, s.agents[j].lease) && q in s.db.attempts
         && (if BeginDispatch(s.db, s.limits, q, amount).Some? then q == r else StartableAfter(s, j, r))
       case SawAuthorized(q) =>
         && LeaseHeld(s.row, s.agents[j].lease) && q in s.db.attempts && !Locked(s, q)
         && (if Dispatchable(s, q) then q == r else StartableAfter(s, j, r))
       case Stepping => LeaseHeld(s.row, s.agents[j].lease) && Startable(s, r)
       case _ => false
  }

  ghost predicate CallsAlone(s: State, j: nat, r: RequestId) {
    exists steps :: OwnDispatch(steps, j) && Called(Run(s, steps), j, r)
  }

  // ------------------------------------------------------------------ who can call does call

  lemma {:induction false} RunPrepend(s: State, step: Step, steps: seq<Step>)
    ensures Run(s, [step] + steps) == Run(Apply(s, step), steps)
  {
    var all := [step] + steps;
    if steps == [] {
      assert all[..0] == [];
      assert Run(s, all[..0]) == s;
    } else {
      var front := steps[..|steps| - 1];
      RunPrepend(s, step, front);
      assert all[..|all| - 1] == [step] + front;
    }
  }

  /** One own step, then whatever leads to the call from there. */
  lemma CallsAfter(s: State, step: Step, s': State, j: nat, r: RequestId)
    requires DispatchStep(step, j) && s' == Apply(s, step) && CallsAlone(s', j, r)
    ensures CallsAlone(s, j, r)
  {
    var steps :| OwnDispatch(steps, j) && Called(Run(s', steps), j, r);
    RunPrepend(s, step, steps);
    assert OwnDispatch([step] + steps, j);
  }

  lemma ConfirmedCalls(s: State, j: nat, r: RequestId)
    requires CanCall(s, j, r) && s.agents[j].doing.Confirmed?
    ensures CallsAlone(s, j, r)
  {
    var s' := Apply(s, Invoke(j));
    assert Run(s', []) == s' && OwnDispatch([], j) && Called(s', j, r);
    CallsAfter(s, Invoke(j), s', j, r);
  }

  lemma ClearedCalls(s: State, j: nat, r: RequestId)
    requires CanCall(s, j, r) && s.agents[j].doing.Cleared?
    ensures CallsAlone(s, j, r)
  {
    var s' := Apply(s, CheckLease(j));
    assert CanCall(s', j, r);
    ConfirmedCalls(s', j, r);
    CallsAfter(s, CheckLease(j), s', j, r);
  }

  lemma CommittedCanCall(s: State, j: nat, r: RequestId, s': State)
    requires CanCall(s, j, r) && s.agents[j].doing.Reserving? && s.agents[j].doing.request == r
    requires BeginDispatch(s.db, s.limits, r, s.agents[j].doing.amount).Some?
    requires s' == DoCommitDispatch(s, j)
    ensures CanCall(s', j, r) && s'.agents[j].doing.Cleared?
  {
  }

  /** A reservation whose dispatch commits. */
  lemma ReservingCalls(s: State, j: nat, r: RequestId)
    requires CanCall(s, j, r) && s.agents[j].doing.Reserving? && s.agents[j].doing.request == r
    requires BeginDispatch(s.db, s.limits, r, s.agents[j].doing.amount).Some?
    ensures CallsAlone(s, j, r)
  {
    var s' := Apply(s, CommitDispatch(j));
    CommittedCanCall(s, j, r, s');
    ClearedCalls(s', j, r);
    CallsAfter(s, CommitDispatch(j), s', j, r);
  }

  lemma ReservedCanCall(s: State, j: nat, r: RequestId, s': State)
    requires CanCall(s, j, r) && s.agents[j].doing == SawAuthorized(r) && Dispatchable(s, r) && s' == DoReserve(s, j)
    ensures CanCall(s', j, r) && s'.agents[j].doing.Reserving? && s'.agents[j].doing.request == r
    ensures BeginDispatch(s'.db, s'.limits, r, s'.agents[j].doing.amount).Some?
  {
  }

  lemma SawCalls(s: State, j: nat, r: RequestId)
    requires CanCall(s, j, r) && s.agents[j].doing == SawAuthorized(r) && Dispatchable(s, r)
    ensures CallsAlone(s, j, r)
  {
    var s' := Apply(s, Reserve(j));
    ReservedCanCall(s, j, r, s');
    ReservingCalls(s', j, r);
    CallsAfter(s, Reserve(j), s', j, r);
  }

  lemma ReadCanCall(s: State, j: nat, r: RequestId, s': State)
    requires CanCall(s, j, r) && s.agents[j].doing.Stepping? && s' == DoReadAttempt(s, j, r)
    ensures CanCall(s', j, r) && s'.agents[j].doing == SawAuthorized(r) && Dispatchable(s', r)
  {
    assert forall i :: 0 <= i < |s.agents| && i != j ==> s'.agents[i] == s.agents[i];
  }

  lemma SteppingCalls(s: State, j: nat, r: RequestId)
    requires CanCall(s, j, r) && s.agents[j].doing.Stepping?
    ensures CallsAlone(s, j, r)
  {
    var s' := Apply(s, ReadAttempt(j, r));
    ReadCanCall(s, j, r, s');
    SawCalls(s', j, r);
    CallsAfter(s, ReadAttempt(j, r), s', j, r);
  }

  /** A dispatch that will be refused brings the process back into its step with nothing written. */
  lemma RefusedCommit(s: State, j: nat, r: RequestId, s': State)
    requires CanCall(s, j, r) && s.agents[j].doing.Reserving? && s' == DoCommitDispatch(s, j)
    requires BeginDispatch(s.db, s.limits, s.agents[j].doing.request, s.agents[j].doing.amount).None?
    ensures s' == Turn(s, j, Stepping) && CanCall(s', j, r)
  {
  }

  lemma RefusedReservation(s: State, j: nat, r: RequestId, s': State)
    requires CanCall(s, j, r) && s.agents[j].doing.SawAuthorized? && s' == DoReserve(s, j)
    requires !Dispatchable(s, s.agents[j].doing.request)
    ensures CanCall(s', j, r)
    ensures s'.agents[j].doing.Stepping?
            || (s'.agents[j].doing.Reserving?
                && BeginDispatch(s'.db, s'.limits, s'.agents[j].doing.request, s'.agents[j].doing.amount).None?)
  {
    assert s'.agents == s.agents[j := s'.agents[j]];
    assert Turn(s', j, Stepping) == Turn(s, j, Stepping);
  }

  lemma RefusedReservingCalls(s: State, j: nat, r: RequestId)
    requires CanCall(s, j, r) && s.agents[j].doing.Reserving?
    requires BeginDispatch(s.db, s.limits, s.agents[j].doing.request, s.agents[j].doing.amount).None?
    ensures CallsAlone(s, j, r)
  {
    var s' := Apply(s, CommitDispatch(j));
    RefusedCommit(s, j, r, s');
    SteppingCalls(s', j, r);
    CallsAfter(s, CommitDispatch(j), s', j, r);
  }

  lemma RefusedSawCalls(s: State, j: nat, r: RequestId)
    requires CanCall(s, j, r) && s.agents[j].doing.SawAuthorized? && !Dispatchable(s, s.agents[j].doing.request)
    ensures CallsAlone(s, j, r)
  {
    var s' := Apply(s, Reserve(j));
    RefusedReservation(s, j, r, s');
    if s'.agents[j].doing.Stepping? {
      SteppingCalls(s', j, r);
    } else {
      RefusedReservingCalls(s', j, r);
    }
    CallsAfter(s, Reserve(j), s', j, r);
  }

  lemma AbleProcessesCall(s: State, j: nat, r: RequestId)
    requires CanCall(s, j, r)
    ensures CallsAlone(s, j, r)
  {
    match s.agents[j].doing
    case Confirmed(_) => ConfirmedCalls(s, j, r);
    case Cleared(_) => ClearedCalls(s, j, r);
    case Reserving(q, amount) =>
      if BeginDispatch(s.db, s.limits, q, amount).Some? {
        ReservingCalls(s, j, r);
      } else {
        RefusedReservingCalls(s, j, r);
      }
    case SawAuthorized(q) =>
      if Dispatchable(s, q) {
        SawCalls(s, j, r);
      } else {
        RefusedSawCalls(s, j, r);
      }
    case Stepping => SteppingCalls(s, j, r);
  }

  // ------------------------------------------------------------------ who calls could call

  predicate CallsOrCould(s: State, j: nat, r: RequestId) {
    Called(s, j, r) || CanCall(s, j, r)
  }

  lemma ReadGoesBack(s: State, j: nat, q: RequestId, r: RequestId, s': State)
    requires s' == DoReadAttempt(s, j, q) && CallsOrCould(s', j, r)
    ensures CallsOrCould(s, j, r)
  {
    if s' != s {
      assert forall i :: 0 <= i < |s.agents| && i != j ==> s'.agents[i] == s.agents[i];
      if !Dispatchable(s', q) {
        assert Turn(s', j, Stepping) == s;
      }
    }
  }

  lemma ReserveGoesBack(s: State, j: nat, r: RequestId, s': State)
    requires s' == DoReserve(s, j) && CallsOrCould(s', j, r)
    ensures CallsOrCould(s, j, r)
  {
    if s' != s {
      assert Turn(s', j, Stepping) == Turn(s, j, Stepping);
    }
  }

  lemma CommitGoesBack(s: State, j: nat, r: RequestId, s': State)
    requires s' == DoCommitDispatch(s, j) && CallsOrCould(s', j, r)
    ensures CallsOrCould(s, j, r)
  {
  }

  lemma CheckGoesBack(s: State, j: nat, r: RequestId, s': State)
    requires s' == DoCheckLease(s, j) && CallsOrCould(s', j, r)
    ensures CallsOrCould(s, j, r)
  {
  }

  lemma InvokeGoesBack(s: State, j: nat, r: RequestId, s': State)
    requires s' == DoInvoke(s, j) && CallsOrCould(s', j, r)
    ensures CallsOrCould(s, j, r)
  {
  }

  lemma StepGoesBack(s: State, step: Step, j: nat, r: RequestId, s': State)
    requires DispatchStep(step, j) && s' == Apply(s, step) && CallsOrCould(s', j, r)
    ensures CallsOrCould(s, j, r)
  {
    match step
    case ReadAttempt(_, q) => ReadGoesBack(s, j, q, r, s');
    case Reserve(_) => ReserveGoesBack(s, j, r, s');
    case CommitDispatch(_) => CommitGoesBack(s, j, r, s');
    case CheckLease(_) => CheckGoesBack(s, j, r, s');
    case Invoke(_) => InvokeGoesBack(s, j, r, s');
  }

  lemma {:induction false} CallersCould(s: State, j: nat, r: RequestId, steps: seq<Step>)
    requires OwnDispatch(steps, j) && CallsOrCould(Run(s, steps), j, r)
    ensures CallsOrCould(s, j, r)
  {
    if steps != [] {
      var front := steps[..|steps| - 1];
      StepGoesBack(Run(s, front), steps[|steps| - 1], j, r, Run(s, steps));
      CallersCould(s, j, r, front);
    }
  }

  /**
    In any state, ended run or not: a process's own dispatch steps lead to a call of the Worker for a request if and only
    if the process holds the row (or needs no lease, or has been let through) and stands at a ticket, a reservation, a
    read attempt or its step with that request dispatchable.
   */
  lemma CallsExactlyWhenAble(s: State, j: nat, r: RequestId)
    requires !Called(s, j, r)
    ensures CallsAlone(s, j, r) <==> CanCall(s, j, r)
  {
    if CallsAlone(s, j, r) {
      var steps :| OwnDispatch(steps, j) && Called(Run(s, steps), j, r);
      CallersCould(s, j, r, steps);
    }
    if CanCall(s, j, r) {
      AbleProcessesCall(s, j, r);
    }
  }
}
