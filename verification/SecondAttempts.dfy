/** When leased processes do commit two hooked attempts of one experiment: what must have happened. */
module SecondAttempts {
  import opened Wrappers
  import opened Ledger
  import opened Store
  import opened Execution
  import opened Runs
  import opened Protocol
  import opened EndStates
  import opened Restart
  import opened LateCalls
  import opened SecondCalls

  /** The step commits a hooked attempt of the experiment. */
  predicate Commits(s: State, step: Step, x: ExperimentId) {
    && step.CommitAuthorization? && step.hooked
    && Acts(s, step.i) && s.agents[step.i].doing == Authorizing(x)
    && Apply(s, step).past.created != s.past.created
  }

  lemma CommitNeedsLease(s: State, step: Step, x: ExperimentId)
    requires Commits(s, step, x)
    ensures LeaseHeld(s.row, s.agents[step.i].lease) && HasAttemptFor(Apply(s, step).db, x)
    ensures !Apply(s, step).agents[step.i].doing.Authorizing?
  {
    var s' := Apply(s, step);
    HookNeedsLiveRow(s, step.i, step.request, step.verdict, step.plan, step.hooked, s');
    AuthorizationCreates(s, step.i, step.request, step.verdict, step.plan, step.hooked, s');
    AuthorizersMove(s, step, s');
    assert s'.db.attempts[step.request].experiment == x;
  }

  /** An experiment that has an attempt keeps it. */
  lemma AttemptStays(s: State, step: Step, s': State, x: ExperimentId)
    requires s' == Apply(s, step) && HasAttemptFor(s.db, x)
    ensures HasAttemptFor(s'.db, x)
  {
    var r :| r in s.db.attempts && s.db.attempts[r].experiment == x;
    if step.CommitAuthorization? {
      AuthorizationKeepsAttempt(s, step, s', r);
    } else {
      OtherStepsCreateNothing(s, step, s');
    }
    assert r in s'.db.attempts && s'.db.attempts[r].experiment == x;
  }

  lemma AuthorizationKeepsAttempt(s: State, step: Step, s': State, r: RequestId)
    requires s' == Apply(s, step) && step.CommitAuthorization? && r in s.db.attempts
    ensures r in s'.db.attempts && s'.db.attempts[r].experiment == s.db.attempts[r].experiment
  {
    if s'.db != s.db {
      AuthorizationIsOnward(s.db, s.agents[step.i].doing.experiment, step.request, step.verdict, step.plan);
    }
  }

  /** Nobody starts to authorize an experiment that has an attempt. */
  lemma AuthorizingWasAuthorizing(s: State, step: Step, s': State, j: nat, x: ExperimentId)
    requires s' == Apply(s, step) && HasAttemptFor(s.db, x)
    requires j < |s'.agents| && s'.agents[j].doing == Authorizing(x)
    ensures j < |s.agents| && s.agents[j].doing == Authorizing(x) && s'.agents[j].lease == s.agents[j].lease
  {
    NewProcessesAreIdle(s, step, s');
    LeasesKept(s, step, s', j);
    if step.CommitAuthorization? {
      AuthorizersMove(s, step, s');
    } else if !step.ReadExperiment? {
      OthersMoveNoAuthorizerAt(s, step, s', j);
    }
  }

  lemma LeasesKept(s: State, step: Step, s': State, j: nat)
    requires s' == Apply(s, step)
    ensures j < |s.agents| ==> j < |s'.agents| && s'.agents[j].lease == s.agents[j].lease
    ensures |s.agents| <= j < |s'.agents| ==> s'.agents[j].doing.Idle?
  {
  }

  lemma {:induction false} AuthorizingAllAlong(s: State, steps: seq<Step>, j: nat, x: ExperimentId)
    requires HasAttemptFor(s.db, x) && j < |Run(s, steps).agents| && Run(s, steps).agents[j].doing == Authorizing(x)
    ensures j < |s.agents| && s.agents[j].doing == Authorizing(x) && Run(s, steps).agents[j].lease == s.agents[j].lease
  {
    if steps != [] {
      var front := steps[..|steps| - 1];
      AttemptsStay(s, front, x);
      AuthorizingWasAuthorizing(Run(s, front), steps[|steps| - 1], Run(s, steps), j, x);
      AuthorizingAllAlong(s, front, j, x);
    }
  }

  lemma {:induction false} AttemptsStay(s: State, steps: seq<Step>, x: ExperimentId)
    requires HasAttemptFor(s.db, x)
    ensures HasAttemptFor(Run(s, steps).db, x)
  {
    if steps != [] {
      AttemptsStay(s, steps[..|steps| - 1], x);
      AttemptStays(Run(s, steps[..|steps| - 1]), steps[|steps| - 1], Run(s, steps), x);
    }
  }

  /**
    In every run, whatever is written: when one process commits a hooked attempt of an experiment and later another
    commits one of the same experiment under a lease, the second was authorizing it already when the first committed;
    and unless the two share a lease, its lease was not honoured then and was honoured again by a step since.
   */
  lemma {:induction false} SecondAttemptNeedsRevival(
    s: State, first: Step, more: seq<Step>, second: Step, x: ExperimentId)
    requires Commits(s, first, x) && s.agents[first.i].lease.Some?
    requires Commits(Run(Apply(s, first), more), second, x)
    requires Run(Apply(s, first), more).agents[second.i].lease.Some?
    ensures
      var i, j := first.i, second.i;
      && j != i && j < |s.agents| && s.agents[j].doing == Authorizing(x) && s.agents[j].lease.Some?
      && LeaseHeld(s.row, s.agents[i].lease)
      && (s.agents[j].lease == s.agents[i].lease
          || (!LeaseHeld(s.row, s.agents[j].lease) && Revived(s, [first] + more, s.agents[j].lease.value)))
  {
    var i, j := first.i, second.i;
    var after := Apply(s, first);
    CommitNeedsLease(s, first, x);
    CommitNeedsLease(Run(after, more), second, x);
    AuthorizingAllAlong(after, more, j, x);
    AuthorizersMove(s, first, after);
    RunPrepend(s, first, more);
    if s.agents[j].lease != s.agents[i].lease {
      HonouredAgain(s, [first] + more, s.agents[j].lease.value);
    }
  }

  /** A process whose lease is not honoured commits a hooked attempt again only after its lease was revived. */
  lemma {:induction false} SupersededAuthorizationNeedsRevival(s: State, more: seq<Step>, step: Step, x: ExperimentId)
    requires Commits(Run(s, more), step, x) && Run(s, more).agents[step.i].lease.Some?
    requires !LeaseHeld(s.row, Run(s, more).agents[step.i].lease)
    ensures Revived(s, more, Run(s, more).agents[step.i].lease.value)
  {
    CommitNeedsLease(Run(s, more), step, x);
    HonouredAgain(s, more, Run(s, more).agents[step.i].lease.value);
  }
}
