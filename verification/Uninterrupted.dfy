/** The use case of module Execution is what one process does in a run when nobody interrupts it. */
module Uninterrupted {
  import opened Wrappers
  import opened Ledger
  import opened Store
  import opened Execution
  import opened Runs
  import opened Restart
  import opened LateCalls

  predicate OwnSteps(steps: seq<Step>, i: nat) {
    forall n :: 0 <= n < |steps| ==> NeedsStepping(steps[n]) && steps[n].i == i
  }

  /** Executor steps of process `i` alone lead to these tables and these calls of the Worker. */
  ghost predicate Does(s: State, i: nat, db: Db, invoked: seq<nat>) {
    exists steps :: OwnSteps(steps, i) && Run(s, steps).db == db && Run(s, steps).past.invoked == invoked
  }

  lemma DoesNothing(s: State, i: nat)
    ensures Does(s, i, s.db, s.past.invoked)
  {
    assert OwnSteps([], i) && Run(s, []) == s;
  }

  lemma DoesAfter(s: State, step: Step, s': State, i: nat, db: Db, invoked: seq<nat>)
    requires NeedsStepping(step) && step.i == i && s' == Apply(s, step) && Does(s', i, db, invoked)
    ensures Does(s, i, db, invoked)
  {
    var steps :| OwnSteps(steps, i) && Run(s', steps).db == db && Run(s', steps).past.invoked == invoked;
    RunPrepend(s, step, steps);
    assert OwnSteps([step] + steps, i);
  }

  // ------------------------------------------------------------------ from the Worker's answer back to the dispatch

  lemma IngestingDoes(s: State, i: nat, ticket: nat, document: WorkerDocument, r: RequestId)
    requires Doing(s, i, Ingesting(ticket, document)) && TicketFor(s, ticket, r) && r in s.db.attempts
    ensures Does(s, i, IngestOutcomeOf(s.db, r, document).db, s.past.invoked)
  {
    var s' := Apply(s, CommitIngestion(i));
    DoesNothing(s', i);
    DoesAfter(s, CommitIngestion(i), s', i, s'.db, s.past.invoked);
  }

  lemma ReturnedDoes(s: State, i: nat, ticket: nat, r: RequestId, answer: Answer)
    requires Doing(s, i, Returned(ticket)) && TicketFor(s, ticket, r) && r in s.db.attempts
    ensures Does(s, i, AfterInvocation(s.db, r, answer).db, s.past.invoked)
  {
    if !answer.stored {
      DoesNothing(s, i);
    } else {
      RecordedDoes(s, i, ticket, r, answer);
    }
  }

  lemma OutcomeStep(s: State, i: nat, ticket: nat, r: RequestId, invocation: Invocation, s': State)
    requires Doing(s, i, Returned(ticket)) && TicketFor(s, ticket, r) && r in s.db.attempts
    requires s' == Apply(s, CommitOutcome(i, invocation))
    ensures s'.db == RecordOutcome(s.db, r, invocation) && s'.past == s.past && r in s'.db.attempts
    ensures
      Doing(s', i, if invocation.status.InvocationCompleted? && invocation.document.Some?
                   then Ingesting(ticket, invocation.document.value) else Stepping)
  {
  }

  lemma RecordedDoes(s: State, i: nat, ticket: nat, r: RequestId, answer: Answer)
    requires Doing(s, i, Returned(ticket)) && TicketFor(s, ticket, r) && r in s.db.attempts && answer.stored
    ensures Does(s, i, AfterInvocation(s.db, r, answer).db, s.past.invoked)
  {
    var step := CommitOutcome(i, answer.invocation);
    var s' := Apply(s, step);
    OutcomeStep(s, i, ticket, r, answer.invocation, s');
    if answer.invocation.status.InvocationCompleted? && answer.invocation.document.Some? {
      IngestingDoes(s', i, ticket, answer.invocation.document.value, r);
    } else {
      DoesNothing(s', i);
    }
    DoesAfter(s, step, s', i, AfterInvocation(s.db, r, answer).db, s.past.invoked);
  }

  lemma ClearedDoes(s: State, i: nat, ticket: nat, r: RequestId, answer: Answer)
    requires Doing(s, i, Cleared(ticket)) && TicketFor(s, ticket, r) && r in s.db.attempts
    requires LeaseHeld(s.row, s.agents[i].lease)
    ensures Does(s, i, AfterInvocation(s.db, r, answer).db, s.past.invoked + [ticket])
  {
    var confirmed := Apply(s, CheckLease(i));
    assert Doing(confirmed, i, Confirmed(ticket)) && confirmed.db == s.db;
    var returned := Apply(confirmed, Invoke(i));
    var db, invoked := AfterInvocation(s.db, r, answer).db, s.past.invoked + [ticket];
    ReturnedDoes(returned, i, ticket, r, answer);
    DoesAfter(confirmed, Invoke(i), returned, i, db, invoked);
    DoesAfter(s, CheckLease(i), confirmed, i, db, invoked);
  }

  lemma CommitClears(s: State, i: nat, r: RequestId, amount: Positive, s': State)
    requires Doing(s, i, Reserving(r, amount)) && r in s.db.attempts && s' == DoCommitDispatch(s, i)
    requires BeginDispatch(s.db, s.limits, r, amount).Some?
    ensures Doing(s', i, Cleared(|s.past.cleared|)) && TicketFor(s', |s.past.cleared|, r)
    ensures s'.db == BeginDispatch(s.db, s.limits, r, amount).value && r in s'.db.attempts
    ensures s'.row == s.row && s'.past.invoked == s.past.invoked && s'.agents[i].lease == s.agents[i].lease
  {
  }

  lemma ReservingDoes(s: State, i: nat, r: RequestId, amount: Positive, answer: Answer)
    requires Doing(s, i, Reserving(r, amount)) && r in s.db.attempts && LeaseHeld(s.row, s.agents[i].lease)
    requires BeginDispatch(s.db, s.limits, r, amount).Some?
    ensures Does(s, i, AfterInvocation(BeginDispatch(s.db, s.limits, r, amount).value, r, answer).db,
                 s.past.invoked + [|s.past.cleared|])
  {
    var s' := Apply(s, CommitDispatch(i));
    CommitClears(s, i, r, amount, s');
    ClearedDoes(s', i, |s.past.cleared|, r, answer);
    DoesAfter(s, CommitDispatch(i), s', i, AfterInvocation(s'.db, r, answer).db, s.past.invoked + [|s.past.cleared|]);
  }

  /** The calls after a dispatch: one more, on the ticket its commit takes, exactly when it reached the Worker. */
  function CallsAfterwards(s: State, outcome: Outcome): seq<nat> {
    if outcome.invoked then s.past.invoked + [|s.past.cleared|] else s.past.invoked
  }

  lemma AuthorizedDoes(s: State, i: nat, r: RequestId, answer: Answer)
    requires Doing(s, i, SawAuthorized(r)) && r in s.db.attempts && s.db.attempts[r].state.Authorized? && !Locked(s, r)
    requires LeaseHeld(s.row, s.agents[i].lease)
    ensures
      var outcome := DispatchOn(s.db, s.limits, r, answer);
      Does(s, i, outcome.db, CallsAfterwards(s, outcome))
  {
    var outcome := DispatchOn(s.db, s.limits, r, answer);
    if outcome.invoked {
      var amount := RequestAmount(s.db.ledger, s.limits, s.db.attempts[r]).value;
      var s' := Apply(s, Reserve(i));
      assert s' == Turn(s, i, Reserving(r, amount));
      ReservingDoes(s', i, r, amount, answer);
      DoesAfter(s, Reserve(i), s', i, outcome.db, CallsAfterwards(s, outcome));
    } else {
      DoesNothing(s, i);
    }
  }

  lemma ReadingKeepsUnlocked(s: State, i: nat, doing: Activity, r: RequestId)
    requires i < |s.agents| && !Locked(s, r) && !doing.Reserving?
    ensures !Locked(Turn(s, i, doing), r)
  {
    var s' := Turn(s, i, doing);
    forall j | 0 <= j < |s'.agents| ensures !(s'.agents[j].alive && s'.agents[j].doing.Reserving? && s'.agents[j].doing.request == r) {
      assert j != i ==> s'.agents[j] == s.agents[j];
    }
  }

  /** A process in its step, holding the row or unleased, does to tables and Worker what the dispatch function says. */
  lemma DispatchRunsAlone(s: State, i: nat, r: RequestId, answer: Answer)
    requires Doing(s, i, Stepping) && LeaseHeld(s.row, s.agents[i].lease) && !Locked(s, r)
    ensures
      var outcome := DispatchOn(s.db, s.limits, r, answer);
      Does(s, i, outcome.db, CallsAfterwards(s, outcome))
  {
    var outcome := DispatchOn(s.db, s.limits, r, answer);
    var read := Apply(s, ReadAttempt(i, r));
    if r in s.db.attempts && s.db.attempts[r].state.Authorized? {
      ReadingKeepsUnlocked(s, i, SawAuthorized(r), r);
      AuthorizedDoes(read, i, r, answer);
      DoesAfter(s, ReadAttempt(i, r), read, i, outcome.db, CallsAfterwards(s, outcome));
    } else if r in s.db.attempts && s.db.attempts[r].state.Dispatching? {
      var marked := Apply(read, CommitUnknown(i));
      assert read == Turn(s, i, SawDispatching(r));
      DoesNothing(marked, i);
      DoesAfter(read, CommitUnknown(i), marked, i, outcome.db, s.past.invoked);
      DoesAfter(s, ReadAttempt(i, r), read, i, outcome.db, s.past.invoked);
    } else {
      DoesNothing(s, i);
    }
  }

  // ------------------------------------------------------------------ authorization

  /** Reading the experiment and committing at once is the hooked authorization, orchestration save included. */
  lemma HookedAuthorizationRunsAlone(
    s: State, i: nat, x: ExperimentId, r: RequestId, verdict: Verdict, plan: PlanBinding, existing: Option<AttemptState>,
    s': State)
    requires Doing(s, i, Stepping) && s.agents[i].current.Some? && Listed(s.db, x, existing)
    requires s' == Apply(Apply(s, ReadExperiment(i, x)), CommitAuthorization(i, r, verdict, plan, true))
    ensures
      var result := AuthorizeWithHook(
        s.db, x, r, verdict, plan, existing, s.row, s.agents[i].current.value, GuardOf(s.agents[i].lease), s.now);
      s'.db == result.db && s'.row == result.row
  {
    if x in s.db.experiments && !TerminalExperiment(s.db.experiments[x].state) && existing.None? {
      assert Apply(s, ReadExperiment(i, x)) == Turn(s, i, Authorizing(x));
    } else {
      assert Apply(s, ReadExperiment(i, x)) == s;
    }
  }

  lemma PlainAuthorizationRunsAlone(
    s: State, i: nat, x: ExperimentId, r: RequestId, verdict: Verdict, plan: PlanBinding, s': State)
    requires Doing(s, i, Stepping) && s.agents[i].current.Some?
    requires x in s.db.experiments && !TerminalExperiment(s.db.experiments[x].state) && !HasAttemptFor(s.db, x)
    requires s' == Apply(Apply(s, ReadExperiment(i, x)), CommitAuthorization(i, r, verdict, plan, false))
    ensures s'.db == AuthorizeWrite(s.db, x, r, verdict, plan).db && s'.row == s.row && s'.limits == s.limits
    ensures s'.past.cleared == s.past.cleared && s'.past.invoked == s.past.invoked
    ensures Doing(s', i, Stepping) && s'.agents == s.agents[i := s'.agents[i]] && s'.agents[i].lease == s.agents[i].lease
  {
    assert Apply(s, ReadExperiment(i, x)) == Turn(s, i, Authorizing(x));
  }

  // ------------------------------------------------------------------ the use case

  lemma ReentryDoes(s: State, i: nat, x: ExperimentId, first: Option<RequestId>)
    requires Doing(s, i, Stepping) && ListedFirst(s.db, x, first)
    ensures Does(s, i, Reenter(s.db, x, first).db, s.past.invoked)
  {
    var after := Reenter(s.db, x, first).db;
    if first.Some? && x in s.db.experiments && s.db.attempts[first.value].state.Dispatching? {
      var read := Apply(s, ReadAttempt(i, first.value));
      assert read == Turn(s, i, SawDispatching(first.value));
      var marked := Apply(read, CommitUnknown(i));
      DoesNothing(marked, i);
      DoesAfter(read, CommitUnknown(i), marked, i, after, s.past.invoked);
      DoesAfter(s, ReadAttempt(i, first.value), read, i, after, s.past.invoked);
    } else {
      DoesNothing(s, i);
    }
  }

  lemma AuthorizedThenDispatched(
    s: State, i: nat, x: ExperimentId, r: RequestId, verdict: Verdict, plan: PlanBinding, answer: Answer)
    requires Doing(s, i, Stepping) && s.agents[i].current.Some? && LeaseHeld(s.row, s.agents[i].lease) && !Locked(s, r)
    requires x in s.db.experiments && !TerminalExperiment(s.db.experiments[x].state) && !HasAttemptFor(s.db, x)
    ensures
      var outcome := ExecuteOn(s.db, s.limits, x, r, verdict, plan, answer, None);
      Does(s, i, outcome.db, CallsAfterwards(s, outcome))
  {
    var outcome := ExecuteOn(s.db, s.limits, x, r, verdict, plan, answer, None);
    var read := Apply(s, ReadExperiment(i, x));
    var commit := CommitAuthorization(i, r, verdict, plan, false);
    var s' := Apply(read, commit);
    PlainAuthorizationRunsAlone(s, i, x, r, verdict, plan, s');
    if AuthorizeWrite(s.db, x, r, verdict, plan).authorized {
      AfterwardsUnlocked(s, s', i, r);
      DispatchRunsAlone(s', i, r, answer);
    } else {
      DoesNothing(s', i);
    }
    DoesAfter(read, commit, s', i, outcome.db, CallsAfterwards(s, outcome));
    DoesAfter(s, ReadExperiment(i, x), read, i, outcome.db, CallsAfterwards(s, outcome));
  }

  lemma AfterwardsUnlocked(s: State, s': State, i: nat, r: RequestId)
    requires i < |s.agents| && !Locked(s, r)
    requires |s'.agents| == |s.agents| && s'.agents == s.agents[i := s'.agents[i]] && s'.agents[i].doing.Stepping?
    ensures !Locked(s', r)
  {
    forall j | 0 <= j < |s'.agents| ensures !(s'.agents[j].alive && s'.agents[j].doing.Reserving? && s'.agents[j].doing.request == r) {
      assert j != i ==> s'.agents[j] == s.agents[j];
    }
  }

  /** The whole use case of an uninterrupted process is the execution function, call of the Worker included. */
  lemma ExecuteRunsAlone(
    s: State, i: nat, x: ExperimentId, r: RequestId, verdict: Verdict, plan: PlanBinding, answer: Answer, first: Option<RequestId>)
    requires Doing(s, i, Stepping) && s.agents[i].current.Some? && LeaseHeld(s.row, s.agents[i].lease) && !Locked(s, r)
    requires ListedFirst(s.db, x, first)
    ensures
      var outcome := ExecuteOn(s.db, s.limits, x, r, verdict, plan, answer, first);
      Does(s, i, outcome.db, CallsAfterwards(s, outcome))
  {
    if Reenter(s.db, x, first).status.Some? {
      ReentryDoes(s, i, x, first);
    } else {
      AuthorizedThenDispatched(s, i, x, r, verdict, plan, answer);
    }
  }
}
