/** Taking a run over while its attempt is still with the Worker: who can pass the lease check from then on. */
module Takeovers {
  import opened Wrappers
  import opened Ledger
  import opened Store
  import opened Execution
  import opened Runs
  import opened Dispatches
  import opened Fencing
  import opened FencedCalls
  import opened EndStates
  import opened Restart
  import opened LateCalls
  import opened SecondCalls
  import opened Boundaries
  import O = Orchestration

  // ------------------------------------------------------------------ whatever is written

  lemma {:induction false} LeaseIsKept(s: State, steps: seq<Step>, j: nat)
    requires j < |s.agents|
    ensures j < |Run(s, steps).agents| && Run(s, steps).agents[j].lease == s.agents[j].lease
  {
    if steps != [] {
      var front := steps[..|steps| - 1];
      LeaseIsKept(s, front, j);
      LeaseNeverChanges(Run(s, front), steps[|steps| - 1], Run(s, steps), j);
    }
  }

  /** The step lets its process through to the Worker. */
  predicate LetsThrough(s: State, step: Step) {
    NeedsStepping(step) && Apply(s, step).past.passed != s.past.passed
  }

  /**
    While attempts are open, with any processes and operators at work: whoever passes the lease check was past its entry
    checks from the start, and its lease was honoured from the start or was honoured again in between.
   */
  lemma LatePassNeedsRevival(s: State, steps: seq<Step>, n: nat)
    requires n < |steps| && OpenThroughout(s, steps[..n]) && LetsThrough(Run(s, steps[..n]), steps[n])
    ensures
      var i := steps[n].i;
      && i < |s.agents| && !BeforeChecks(s.agents[i])
      && (LeaseHeld(s.row, s.agents[i].lease) || Revived(s, steps[..n], s.agents[i].lease.value))
  {
    var i := steps[n].i;
    OnlyEnteredProcessesAct(s, steps, n);
    PassNeedsLease(Run(s, steps[..n]), steps[n]);
    LeaseIsKept(s, steps[..n], i);
    if !LeaseHeld(s.row, s.agents[i].lease) {
      HonouredAgain(s, steps[..n], s.agents[i].lease.value);
    }
  }

  // ------------------------------------------------------------------ without stale writes

  /** Whoever is past its entry checks holds a lease older than the row's. */
  ghost predicate Superseded(s: State) {
    forall i :: 0 <= i < |s.agents| ==>
      BeforeChecks(s.agents[i]) || (s.agents[i].lease.Some? && s.agents[i].lease.value.epoch < Epoch(s.row))
  }

  lemma OnlyExecutorsPass(s: State, step: Step)
    ensures Apply(s, step).past.passed != s.past.passed ==> LetsThrough(s, step)
  {
    if !NeedsStepping(step) {
      EntriesChangeNothing(s, step, Apply(s, step));
    }
  }

  lemma {:induction false} NoStaleFront(s: State, steps: seq<Step>, n: nat)
    requires n <= |steps| && NoStaleWrite(s, steps)
    ensures NoStaleWrite(s, steps[..n])
  {
    forall k | 0 <= k < n ensures !StaleWrite(Run(s, steps[..n][..k]), steps[..n][k]) {
      assert steps[..n][..k] == steps[..k];
    }
  }

  /** Without stale writes, nobody superseded passes while attempts are open, and nobody else can. */
  lemma {:induction false} SupersededNeverPass(s: State, steps: seq<Step>)
    requires EpochInv(s) && Superseded(s) && OpenThroughout(s, steps) && NoStaleWrite(s, steps)
    ensures Run(s, steps).past.passed == s.past.passed
  {
    if steps != [] {
      var n := |steps| - 1;
      var front, step := steps[..n], steps[n];
      assert OpenThroughout(s, front) by {
        assert forall k :: 0 <= k <= n ==> front[..k] == steps[..k];
      }
      NoStaleFront(s, steps, n);
      SupersededNeverPass(s, front);
      OnlyExecutorsPass(Run(s, front), step);
      if LetsThrough(Run(s, front), step) {
        OnlyEnteredProcessesAct(s, steps, n);
        PassNeedsLease(Run(s, front), step);
        LeaseIsKept(s, front, step.i);
        OldLeasesStayFenced(s, front);
        assert false;
      }
    }
  }

  lemma AcquisitionSupersedes(s: State, owner: O.RuntimeId, ttl: O.Time, s': State)
    requires EpochInv(s) && AllLeased(s.agents) && s' == Apply(s, Acquire(owner, ttl)) && s' != s
    ensures EpochInv(s') && Superseded(s')
  {
    AcquisitionKeepsEpochs(s, owner, ttl, s');
    forall i | 0 <= i < |s'.agents|
      ensures BeforeChecks(s'.agents[i]) || (s'.agents[i].lease.Some? && s'.agents[i].lease.value.epoch < Epoch(s'.row))
    {
      if i < |s.agents| {
        assert AgentBounded(s.agents[i], Epoch(s.row)) && s.agents[i].lease.Some?;
      }
    }
  }

  /**
    Leased processes, a takeover, then any continuation without stale writes, unleased newcomers included: while attempts
    stay open nobody passes the lease check any more, neither the old owner, wherever it stands, nor any newcomer.
   */
  lemma {:induction false} TakeoverStopsTheWorker(
    limits: Limits, steps: seq<Step>, owner: O.RuntimeId, ttl: O.Time, more: seq<Step>)
    requires OnlyLeased(steps) && NoStaleWrite(Initial(limits), steps)
    requires Apply(Run(Initial(limits), steps), Acquire(owner, ttl)) != Run(Initial(limits), steps)
    requires NoStaleWrite(Apply(Run(Initial(limits), steps), Acquire(owner, ttl)), more)
    requires OpenThroughout(Apply(Run(Initial(limits), steps), Acquire(owner, ttl)), more)
    ensures
      Run(Apply(Run(Initial(limits), steps), Acquire(owner, ttl)), more).past.passed == Run(Initial(limits), steps).past.passed
  {
    var before := Run(Initial(limits), steps);
    var taken := Apply(before, Acquire(owner, ttl));
    RunKeepsEpochs(limits, steps);
    OnlyLeasesRun(limits, steps);
    AcquisitionSupersedes(before, owner, ttl, taken);
    SupersededNeverPass(taken, more);
  }

  /** With leased processes and commands at transaction boundaries there is no condition on writes. */
  lemma {:induction false} TakeoverStopsTheWorkerAtBoundaries(
    limits: Limits, steps: seq<Step>, owner: O.RuntimeId, ttl: O.Time, more: seq<Step>)
    requires OnlyLeased(steps + [Acquire(owner, ttl)] + more)
    requires AtBoundaries(Initial(limits), steps + [Acquire(owner, ttl)] + more)
    requires Apply(Run(Initial(limits), steps), Acquire(owner, ttl)) != Run(Initial(limits), steps)
    requires OpenThroughout(Apply(Run(Initial(limits), steps), Acquire(owner, ttl)), more)
    ensures Run(Initial(limits), steps + [Acquire(owner, ttl)] + more).past.passed == Run(Initial(limits), steps).past.passed
  {
    var s0, first := Initial(limits), steps + [Acquire(owner, ttl)];
    var all := first + more;
    BoundaryRunsAreCurrent(limits, all);
    assert first[..|steps|] == steps && all[..|steps|] == steps;
    RunJoins(s0, first, more);
    NoStaleFront(s0, all, |steps|);
    assert OnlyLeased(steps) by {
      assert forall n :: 0 <= n < |steps| ==> steps[n] == all[n];
    }
    forall n | 0 <= n < |more| ensures !StaleWrite(Run(Run(s0, first), more[..n]), more[n]) {
      RunJoins(s0, first, more[..n]);
      assert all[..|first| + n] == first + more[..n] && all[|first| + n] == more[n];
    }
    TakeoverStopsTheWorker(limits, steps, owner, ttl, more);
  }

  // ------------------------------------------------------------------ a late process while an attempt is open

  lemma OpenNext(s: State, steps: seq<Step>, step: Step, s': State)
    requires OpenThroughout(s, steps) && UnknownOpen(s'.db) && s' == Apply(Run(s, steps), step)
    ensures OpenThroughout(s, steps + [step]) && Run(s, steps + [step]) == s'
  {
    var longer := steps + [step];
    assert longer[..|steps|] == steps;
    forall n | 0 <= n <= |longer| ensures UnknownOpen(Run(s, longer[..n]).db) {
      assert longer[..n] == if n <= |steps| then steps[..n] else longer;
    }
  }

  const CALLED_ONCE: State := Pair(Returned(0), SawAuthorized(9), AFTER, [FirstClearance()], [0], [0])
  const LATE_RESERVING: State := Pair(Returned(0), Reserving(9, 16), AFTER, [FirstClearance()], [0], [0])
  const LATE_CLEARED: State := Pair(Returned(0), Cleared(1), AFTER, BOTH_CLEARANCES, [0], [0])
  const LATE_CONFIRMED: State := Pair(Returned(0), Confirmed(1), AFTER, BOTH_CLEARANCES, [0, 1], [0])

  const LATE_STEPS: seq<Step> := [Reserve(1), CommitDispatch(1), CheckLease(1), Invoke(1)]

  lemma DispatchedIsOpen()
    ensures UnknownOpen(AFTER)
  {
    assert AFTER.attempts[9].state.Dispatching?;
  }

  lemma LateReserves()
    ensures Apply(CALLED_ONCE, Reserve(1)) == LATE_RESERVING
  {
    SecondAmount();
  }

  lemma LateCommits()
    ensures Apply(LATE_RESERVING, CommitDispatch(1)) == LATE_CLEARED
  {
    SecondCommits(LATE_RESERVING, LATE_CLEARED);
  }

  lemma LateCallsWorker()
    ensures Apply(LATE_CLEARED, CheckLease(1)) == LATE_CONFIRMED && Apply(LATE_CONFIRMED, Invoke(1)) == TWO_CALLED
  {
  }

  /**
    The line is where it is: a process past its checks, here an unleased one that read AUTHORIZED before the dispatch,
    calls the Worker for the open attempt while it stays open throughout.
   */
  lemma LateDispatcherCallsWhileOpen()
    ensures Reachable(TWO_CALLS, CALLED_ONCE) && !BeforeChecks(CALLED_ONCE.agents[1])
    ensures OpenThroughout(CALLED_ONCE, LATE_STEPS) && Run(CALLED_ONCE, LATE_STEPS) == TWO_CALLED
  {
    FirstInvokes();
    LateStepsCall(CALLED_ONCE, LATE_RESERVING, LATE_CLEARED, LATE_CONFIRMED, TWO_CALLED, LATE_STEPS) by {
      DispatchedIsOpen();
      LateReserves();
      LateCommits();
      LateCallsWorker();
    }
  }

  lemma LateStepsCall(s0: State, s1: State, s2: State, s3: State, s4: State, steps: seq<Step>)
    requires UnknownOpen(s0.db) && UnknownOpen(s1.db) && UnknownOpen(s2.db) && UnknownOpen(s3.db) && UnknownOpen(s4.db)
    requires |steps| == 4 && s1 == Apply(s0, steps[0]) && s2 == Apply(s1, steps[1])
    requires s3 == Apply(s2, steps[2]) && s4 == Apply(s3, steps[3])
    ensures OpenThroughout(s0, steps) && Run(s0, steps) == s4
  {
    assert steps[..1] == [] + [steps[0]] && steps[..2] == steps[..1] + [steps[1]];
    assert steps[..3] == steps[..2] + [steps[2]] && steps == steps[..3] + [steps[3]];
    OpenNext(s0, [], steps[0], s1);
    OpenNext(s0, steps[..1], steps[1], s2);
    OpenNext(s0, steps[..2], steps[2], s3);
    OpenNext(s0, steps[..3], steps[3], s4);
  }
}
