/** What the outcome and ingestion steps of a run leave, stated on the Worker's answer alone. */
module RunOutcomes {
  import opened Wrappers
  import opened Ledger
  import opened Store
  import opened Ingestion
  import opened Execution
  import opened Spine
  import opened Outcomes
  import opened Runs
  import opened Protocol

  /** In a run, a process holding an answer or a document holds the ticket of a dispatched request. */
  lemma HeldRequestIsDispatched(limits: Limits, steps: seq<Step>, i: nat)
    requires Acts(Run(Initial(limits), steps), i)
    requires
      var doing := Run(Initial(limits), steps).agents[i].doing;
      doing.Returned? || doing.Ingesting?
    ensures
      var s := Run(Initial(limits), steps);
      && SpineInv(s.db, s.limits) && TicketKnown(s, s.agents[i].doing.ticket)
      && Left(s.db, s.past.cleared[s.agents[i].doing.ticket].request)
  {
    var s := Run(Initial(limits), steps);
    RunKeepsTables(limits, steps);
    RunKeepsTickets(limits, steps);
    assert HeldTicket(s.past, s.agents[i].doing);
    assert Left(s.db, s.past.cleared[s.agents[i].doing.ticket].request);
  }

  /**
    In every run, the dispatch commit of an AUTHORIZED attempt goes through exactly when the budget has one invocation and
    the reserved requests left; it records both, and the ceiling handed to a browser is the recorded amount.
   */
  lemma {:induction false} CommittedDispatch(limits: Limits, steps: seq<Step>, i: nat)
    requires Acts(Run(Initial(limits), steps), i) && Run(Initial(limits), steps).agents[i].doing.Reserving?
    requires
      var s := Run(Initial(limits), steps);
      var r := s.agents[i].doing.request;
      r in s.db.attempts && s.db.attempts[r].state.Authorized? && s.db.attempts[r].budget in s.limits.issued
    ensures
      var s := Run(Initial(limits), steps);
      var s', r, amount := Apply(s, CommitDispatch(i)), s.agents[i].doing.request, s.agents[i].doing.amount;
      var attempt, issued := s.db.attempts[r], s.limits.issued[s.db.attempts[r].budget];
      var fits := Total(s.db.ledger, attempt.budget, WorkerInvocation) < issued.maxToolCalls
                  && Total(s.db.ledger, attempt.budget, Request) + amount <= issued.maxRequests;
      && (fits ==>
            && SentOutAt(s.db, r, amount, s'.db) && s'.agents[i].doing == Cleared(|s.past.cleared|)
            && s'.past.cleared
               == s.past.cleared + [Clearance(r, attempt.budget, if attempt.capability == BrowserPage then Some(amount) else None,
                                              s.agents[i].lease, true)])
      && (!fits ==> s' == Turn(s, i, Stepping))
  {
    var s := Run(Initial(limits), steps);
    RunKeepsTables(limits, steps);
    FreshChargesFit(s.db, s.limits, s.agents[i].doing.request, s.agents[i].doing.amount);
  }

  /** In every run, the outcome step leaves the states of its invocation and goes on to ingestion exactly with a document. */
  lemma {:induction false} CommittedOutcome(limits: Limits, steps: seq<Step>, i: nat, invocation: Invocation)
    requires Acts(Run(Initial(limits), steps), i) && Run(Initial(limits), steps).agents[i].doing.Returned?
    ensures
      var s := Run(Initial(limits), steps);
      var s' := Apply(s, CommitOutcome(i, invocation));
      && TicketKnown(s, s.agents[i].doing.ticket)
      && var r, doing := s.past.cleared[s.agents[i].doing.ticket].request, s'.agents[i].doing;
      && r in s.db.attempts && r in s'.db.attempts && s.db.attempts[r].experiment in s'.db.experiments
      && var attempt, experiment := s'.db.attempts[r].state, s'.db.experiments[s.db.attempts[r].experiment].state;
      && (attempt.AttemptCompleted? <==> invocation.status.InvocationCompleted?)
      && (attempt.TimedOut? <==> invocation.status.InvocationTimedOut?)
      && (attempt.Cancelled? <==> invocation.status.InvocationCancelled?)
      && (experiment.ExecutionSucceeded? <==>
            invocation.status.InvocationCompleted? && !Reports(invocation, ReauthorizationRequired)
            && !Reports(invocation, ResultBudgetExhausted) && !Reports(invocation, ResultBlocked))
      && OnlyStatesMoved(s.db, s'.db, r)
      && (if invocation.status.InvocationCompleted? && invocation.document.Some?
          then doing == Ingesting(s.agents[i].doing.ticket, invocation.document.value) else doing == Stepping)
  {
    var s := Run(Initial(limits), steps);
    HeldRequestIsDispatched(limits, steps, i);
    OutcomeIsRecordedAs(s.db, s.past.cleared[s.agents[i].doing.ticket].request, invocation);
  }

  /**
    In every run, the ingestion step of a request without a result accepts a document if and only if it is well formed
    and repeats no draft, and then adds its result and exactly its drafts' observations; a malformed one fails attempt and
    experiment; one with repeated drafts writes nothing. A request that has its result keeps the store as it is.
   */
  lemma {:induction false} CommittedIngestion(limits: Limits, steps: seq<Step>, i: nat)
    requires Acts(Run(Initial(limits), steps), i) && Run(Initial(limits), steps).agents[i].doing.Ingesting?
    ensures
      var s := Run(Initial(limits), steps);
      var s', document := Apply(s, CommitIngestion(i)), s.agents[i].doing.document;
      && TicketKnown(s, s.agents[i].doing.ticket)
      && var r := s.past.cleared[s.agents[i].doing.ticket].request;
      && r in s.db.attempts && s'.agents[i].doing == Stepping
      && var x := s.db.attempts[r].experiment;
      && (r !in s.db.results ==>
            && (r in s'.db.results <==> document.wellFormed && NoRepeats(document.drafts))
            && (r in s'.db.results ==>
                  && s'.db.results == s.db.results[r := WorkerResult(x, document.status)]
                  && s'.db.attempts == s.db.attempts && s'.db.experiments == s.db.experiments
                  && forall o :: o in s'.db.observations <==>
                       o in s.db.observations || (o.request == r && o.key in document.drafts))
            && (!document.wellFormed ==>
                  OnlyStatesMoved(s.db, s'.db, r) && s'.db.attempts[r].state.AttemptFailed?
                  && x in s'.db.experiments && s'.db.experiments[x].state.ExecutionFailed?)
            && (document.wellFormed && !NoRepeats(document.drafts) ==> s'.db == s.db))
      && (r in s.db.results && document.wellFormed ==> s'.db == s.db)
  {
    var s := Run(Initial(limits), steps);
    HeldRequestIsDispatched(limits, steps, i);
    var r := s.past.cleared[s.agents[i].doing.ticket].request;
    if r !in s.db.results {
      FirstDocument(s.db, s.limits, r, s.agents[i].doing.document);
    }
  }

  /** An outcome that cannot be recorded changes no table, and the process goes on in its step. */
  lemma LostOutcome(s: State, i: nat)
    requires Acts(s, i) && s.agents[i].doing.Returned?
    ensures Apply(s, LoseOutcome(i)) == s.(agents := s.agents[i := s.agents[i].(doing := Stepping)])
  {
  }

  /** A consumption in a run is one row more or none; dispatch resources are left to dispatches. */
  lemma ConsumptionIsRecorded(s: State, charge: Charge)
    ensures
      var s', dispatch := Apply(s, Consume(charge)), charge.resource.WorkerInvocation? || charge.resource.Request?;
      var recorded := !dispatch && charge.budget in s.limits.issued && !Duplicate(s.db.ledger, charge)
                      && Allows(s.limits, s.row.Some?, charge.budget, charge.resource,
                                Total(s.db.ledger, charge.budget, charge.resource) + charge.amount);
      s' == s.(db := s.db.(ledger := s.db.ledger + if recorded then [charge] else []))
  {
    RecordingAnswers(s.db.ledger, s.limits, s.row.Some?, charge);
  }
}
