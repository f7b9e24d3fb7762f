/** Where every observation of a run comes from. */
module RunProvenance {
  import opened Ledger
  import opened Store
  import opened Ingestion
  import opened Spine
  import opened Runs
  import opened Protocol

  ghost predicate WasInvoked(past: History, r: RequestId) {
    exists t :: t in past.invoked && t < |past.cleared| && past.cleared[t].request == r
  }

  ghost predicate ResultsInvoked(s: State) {
    forall r :: r in s.db.results ==> WasInvoked(s.past, r)
  }

  lemma InvokedPersists(past: History, past': History, r: RequestId)
    requires WasInvoked(past, r) && past.cleared <= past'.cleared && past.invoked <= past'.invoked
    ensures WasInvoked(past', r)
  {
    var t :| t in past.invoked && t < |past.cleared| && past.cleared[t].request == r;
    assert past'.cleared[t] == past.cleared[t] && t in past'.invoked;
  }

  lemma HistoryGrows(s: State, step: Step, s': State)
    requires s' == Apply(s, step)
    ensures s.past.cleared <= s'.past.cleared && s.past.invoked <= s'.past.invoked
  {
  }

  lemma OnlyIngestionAddsResults(s: State, step: Step, s': State)
    requires s' == Apply(s, step) && !step.CommitIngestion?
    ensures s'.db.results == s.db.results
  {
    if step.CommitAuthorization? && s'.db != s.db {
      AuthorizationIsOnward(s.db, s.agents[step.i].doing.experiment, step.request, step.verdict, step.plan);
    } else if !WritesTables(step) {
      OtherStepsLeaveTables(s, step, s');
    }
  }

  lemma StepKeepsResultsInvoked(s: State, step: Step, s': State)
    requires TablesInv(s) && TicketsInv(s) && ResultsInvoked(s) && s' == Apply(s, step)
    ensures ResultsInvoked(s')
  {
    HistoryGrows(s, step, s');
    var added := IngestedRequest(s, step);
    forall r | r in s'.db.results ensures WasInvoked(s'.past, r) {
      if step.CommitIngestion? && s' != s && r == added {
        var t := s.agents[step.i].doing.ticket;
        assert HeldTicket(s.past, s.agents[step.i].doing);
        assert t in s.past.invoked && s.past.cleared[t].request == r;
        InvokedPersists(s.past, s'.past, r);
      } else {
        ResultWasThere(s, step, s', r);
        InvokedPersists(s.past, s'.past, r);
      }
    }
  }

  function IngestedRequest(s: State, step: Step): RequestId {
    if step.CommitIngestion? && step.i < |s.agents| && s.agents[step.i].doing.Ingesting?
       && s.agents[step.i].doing.ticket < |s.past.cleared|
    then s.past.cleared[s.agents[step.i].doing.ticket].request else 0
  }

  lemma ResultWasThere(s: State, step: Step, s': State, r: RequestId)
    requires TablesInv(s) && s' == Apply(s, step) && r in s'.db.results
    requires !(step.CommitIngestion? && s' != s && r == IngestedRequest(s, step))
    ensures r in s.db.results
  {
    if !step.CommitIngestion? {
      OnlyIngestionAddsResults(s, step, s');
    } else if s' != s {
      IngestionIsOnward(s.db, IngestedRequest(s, step), s.agents[step.i].doing.document);
    }
  }

  lemma {:induction false} RunKeepsResultsInvoked(limits: Limits, steps: seq<Step>)
    ensures ResultsInvoked(Run(Initial(limits), steps))
  {
    if steps != [] {
      var front := steps[..|steps| - 1];
      RunKeepsResultsInvoked(limits, front);
      RunKeepsTables(limits, front);
      RunKeepsTickets(limits, front);
      StepKeepsResultsInvoked(Run(Initial(limits), front), steps[|steps| - 1], Run(Initial(limits), steps));
    }
  }

  /**
    The chain behind an observation of any run: its result exists, the result's request was authorized by a committed
    ALLOW audit, was charged for exactly one dispatch, and did reach the Worker.
   */
  lemma {:induction false} ObservationProvenance(limits: Limits, steps: seq<Step>, o: ObservationId)
    requires o in Run(Initial(limits), steps).db.observations
    ensures
      var s := Run(Initial(limits), steps);
      var r := o.request;
      && s.db.observations[o] == r && r in s.db.results && r in s.db.attempts
      && s.db.results[r].experiment == s.db.attempts[r].experiment
      && DecisionAudit(r) in s.db.audits && s.db.audits[DecisionAudit(r)] == ExecutionDecided(Allow)
      && ChargedOnce(s.db, r, WorkerInvocation) && ChargedOnce(s.db, r, Request)
      && WasInvoked(s.past, r)
  {
    var s := Run(Initial(limits), steps);
    RunKeepsTables(limits, steps);
    RunKeepsResultsInvoked(limits, steps);
    LedgerAgreesWithAttempt(s.db, s.limits, o.request);
  }

  /** Every result of a run carries one audit of its own and one per observation. */
  lemma {:induction false} ResultAudits(limits: Limits, steps: seq<Step>, r: RequestId)
    requires r in Run(Initial(limits), steps).db.results
    ensures
      var db := Run(Initial(limits), steps).db;
      |IngestionAuditsOf(db, r)| == 1 + |ObservationsOf(db, r)|
  {
    RunKeepsTables(limits, steps);
    IngestionAuditCount(Run(Initial(limits), steps).db, r);
  }

  /** In every run, an attempt has left AUTHORIZED exactly when it has its two dispatch rows, and no total exceeds its allowance. */
  lemma {:induction false} LedgerAgreesThroughout(limits: Limits, steps: seq<Step>, r: RequestId)
    requires r in Run(Initial(limits), steps).db.attempts
    ensures
      var s := Run(Initial(limits), steps);
      && (Left(s.db, r) <==> ChargedOnce(s.db, r, WorkerInvocation))
      && (Left(s.db, r) <==> ChargedOnce(s.db, r, Request))
      && WithinAllowance(s.db.ledger, s.limits)
  {
    RunKeepsTables(limits, steps);
    LedgerAgreesWithAttempt(Run(Initial(limits), steps).db, Run(Initial(limits), steps).limits, r);
  }
}
