/**
  What one execution of an experiment ends in, stated on verdict, budget and Worker answer alone: who is called, what the
  caller is told, and what the tables say afterwards.
 */
module Outcomes {
  import opened Wrappers
  import opened Ledger
  import opened Store
  import opened Ingestion
  import opened Execution
  import opened Spine

  // ------------------------------------------------------------------ recording an outcome

  predicate Reports(invocation: Invocation, status: ResultStatus) {
    invocation.status.InvocationCompleted? && invocation.document.Some? && invocation.document.value.status == status
  }

  /** The states an invocation leaves, each for its own invocations only; nothing else in the store moves. */
  lemma OutcomeIsRecordedAs(db: Db, r: RequestId, invocation: Invocation)
    requires r in db.attempts && db.attempts[r].experiment in db.experiments
    ensures
      var after := RecordOutcome(db, r, invocation);
      var x := db.attempts[r].experiment;
      var attempt, experiment, status := after.attempts[r].state, after.experiments[x].state, invocation.status;
      && (attempt.AttemptCompleted? <==> status.InvocationCompleted?)
      && (attempt.TimedOut? <==> status.InvocationTimedOut?)
      && (attempt.Cancelled? <==> status.InvocationCancelled?)
      && (attempt.AttemptFailed? <==> status in {StartFailed, ProcessFailed, ProtocolError, ContractInvalid})
      && (experiment.AuthorizationCheck? <==> Reports(invocation, ReauthorizationRequired))
      && (experiment.ExperimentBudgetExhausted? <==> Reports(invocation, ResultBudgetExhausted))
      && (experiment.ExperimentBlocked? <==> Reports(invocation, ResultBlocked))
      && (experiment.ExperimentCancelled? <==> status.InvocationCancelled?)
      && (experiment.ExecutionFailed? <==> !status.InvocationCompleted? && !status.InvocationCancelled?)
      && (experiment.ExecutionSucceeded? <==>
            status.InvocationCompleted? && !Reports(invocation, ReauthorizationRequired)
            && !Reports(invocation, ResultBudgetExhausted) && !Reports(invocation, ResultBlocked))
      && OnlyStatesMoved(db, after, r)
  {
  }

  /** Nothing but the states of an attempt and of its experiment changed. */
  ghost predicate OnlyStatesMoved(db: Db, db': Db, r: RequestId)
    requires r in db.attempts
  {
    var x := db.attempts[r].experiment;
    && db' == db.(attempts := db'.attempts, experiments := db'.experiments)
    && r in db'.attempts && db'.attempts == db.attempts[r := db.attempts[r].(state := db'.attempts[r].state)]
    && (if x !in db.experiments then db'.experiments == db.experiments
        else x in db'.experiments && db'.experiments == db.experiments[x := db.experiments[x].(state := db'.experiments[x].state)])
  }

  // ------------------------------------------------------------------ going out

  /** The budget still has one invocation and the requests the attempt's capability needs. */
  predicate Affordable(limits: Limits, ledger: seq<Charge>, attempt: Attempt) {
    && attempt.budget in limits.issued
    && var left := limits.issued[attempt.budget].maxRequests - Total(ledger, attempt.budget, Request);
       && Total(ledger, attempt.budget, WorkerInvocation) < limits.issued[attempt.budget].maxToolCalls
       && left >= (if attempt.capability.HttpRawExchange? && attempt.reusesConnection then 2 else 1)
  }

  /** The price of a dispatch: fixed, or for a browser all that is left but at most 16. */
  predicate Priced(limits: Limits, ledger: seq<Charge>, attempt: Attempt, price: nat)
    requires attempt.budget in limits.issued
  {
    var left := limits.issued[attempt.budget].maxRequests - Total(ledger, attempt.budget, Request);
    && 1 <= price <= left
    && (attempt.capability.BrowserPage? ==> price <= 16 && (price == 16 || price == left))
    && (!attempt.capability.BrowserPage? ==>
          (price == 2 <==> attempt.capability.HttpRawExchange? && attempt.reusesConnection) && price <= 2)
  }

  lemma NoDispatchRowYet(db: Db, limits: Limits, r: RequestId, resource: Resource)
    requires SpineInv(db, limits) && r in db.attempts && db.attempts[r].state.Authorized? && DispatchResource(resource)
    ensures !HasKey(db.ledger, db.attempts[r].budget, r, resource)
  {
    forall i | 0 <= i < |db.ledger| && db.ledger[i].request == Some(r) ensures db.ledger[i].resource != resource {
      assert DispatchResource(db.ledger[i].resource) ==> ChargesADispatch(db, db.ledger[i]);
    }
  }

  lemma OtherChargeIsNoKey(ledger: seq<Charge>, charge: Charge, budget: BudgetId, r: RequestId, resource: Resource)
    requires charge.resource != resource
    ensures HasKey(ledger + [charge], budget, r, resource) <==> HasKey(ledger, budget, r, resource)
  {
    var longer := ledger + [charge];
    if HasKey(ledger, budget, r, resource) {
      KeyPersists(ledger, longer, budget, r, resource);
    }
  }

  /** The two rows a first dispatch writes, when the budget has room for both. */
  lemma FreshChargesFit(db: Db, limits: Limits, r: RequestId, amount: Positive)
    requires SpineInv(db, limits) && r in db.attempts && db.attempts[r].state.Authorized?
    requires db.attempts[r].budget in limits.issued
    ensures
      var attempt := db.attempts[r];
      var charged := ChargeDispatch(db.ledger, limits, attempt, r, amount);
      && (charged.Some? <==>
            && Total(db.ledger, attempt.budget, WorkerInvocation) < limits.issued[attempt.budget].maxToolCalls
            && Total(db.ledger, attempt.budget, Request) + amount <= limits.issued[attempt.budget].maxRequests)
      && (charged.Some? ==>
            charged.value == db.ledger + [Charge(attempt.budget, Some(r), WorkerInvocation, 1),
                                          Charge(attempt.budget, Some(r), Request, amount)])
  {
    var attempt := db.attempts[r];
    var first := Charge(attempt.budget, Some(r), WorkerInvocation, 1);
    NoDispatchRowYet(db, limits, r, WorkerInvocation);
    NoDispatchRowYet(db, limits, r, Request);
    OtherChargeIsNoKey(db.ledger, first, attempt.budget, r, Request);
    TotalAppend(db.ledger, first, attempt.budget, Request);
    assert db.ledger + [first] + [Charge(attempt.budget, Some(r), Request, amount)]
        == db.ledger + [first, Charge(attempt.budget, Some(r), Request, amount)];
  }

  /** What a dispatch commits: DISPATCHING, RUNNING and one row of each charge, at its price. */
  ghost predicate SentOut(db: Db, limits: Limits, r: RequestId, db': Db)
    requires r in db.attempts && db.attempts[r].budget in limits.issued
  {
    exists price: nat ::
      && Priced(limits, db.ledger, db.attempts[r], price)
      && SentOutAt(db, r, price, db')
  }

  ghost predicate SentOutAt(db: Db, r: RequestId, price: nat, db': Db)
    requires r in db.attempts
  {
    var budget, x := db.attempts[r].budget, db.attempts[r].experiment;
    && price > 0
    && db'.ledger == db.ledger + [Charge(budget, Some(r), WorkerInvocation, 1), Charge(budget, Some(r), Request, price)]
    && OnlyStatesMoved(db, db'.(ledger := db.ledger), r)
    && db'.attempts[r].state.Dispatching?
    && (x in db.experiments ==> db'.experiments[x].state.RunningExperiment?)
  }

  /**
    An AUTHORIZED attempt is handed to the Worker exactly when its budget still has one invocation and the requests its
    capability needs; otherwise nothing is written. When the outcome is then lost, the store is as the dispatch left it.
   */
  lemma {:induction false} DispatchGoesOutExactly(db: Db, limits: Limits, r: RequestId, answer: Answer)
    requires SpineInv(db, limits) && r in db.attempts && db.attempts[r].state.Authorized?
    ensures
      var outcome := DispatchOn(db, limits, r, answer);
      && (outcome.invoked <==> Affordable(limits, db.ledger, db.attempts[r]))
      && (!outcome.invoked ==> outcome.db == db)
      && (!outcome.invoked ==> outcome.status == if db.attempts[r].budget in limits.issued then DispatchDenied else InputRejected)
      && (outcome.invoked && !answer.stored ==> outcome.status.InvocationFailed? && SentOut(db, limits, r, outcome.db))
  {
    var attempt := db.attempts[r];
    if attempt.budget in limits.issued {
      var amount := RequestAmount(db.ledger, limits, attempt);
      if amount.Some? {
        FreshChargesFit(db, limits, r, amount.value);
        var begun := BeginDispatch(db, limits, r, amount.value);
        assert begun.Some? ==> Priced(limits, db.ledger, attempt, amount.value);
        assert begun.Some? ==> SentOutAt(db, r, amount.value, begun.value);
      }
    }
  }

  /** An attempt that is not AUTHORIZED is never handed over; one found DISPATCHING becomes UNKNOWN_OUTCOME. */
  lemma OthersStayInside(db: Db, limits: Limits, r: RequestId, answer: Answer)
    requires r in db.attempts ==> !db.attempts[r].state.Authorized?
    ensures
      var outcome := DispatchOn(db, limits, r, answer);
      && !outcome.invoked
      && (outcome.status.InputRejected? <==> r !in db.attempts)
      && (outcome.status.OutcomeUnknown? <==> r in db.attempts && OpenAttempt(db.attempts[r]))
      && (outcome.status.AlreadyTerminal? <==> r in db.attempts && !OpenAttempt(db.attempts[r]))
      && (if r in db.attempts && db.attempts[r].state.Dispatching?
          then OnlyStatesMoved(db, outcome.db, r) && outcome.db.attempts[r].state.UnknownOutcome?
               && outcome.db.experiments == db.experiments
          else outcome.db == db)
  {
  }

  // ------------------------------------------------------------------ coming back

  /** A completed invocation brought a document that can be ingested. */
  predicate Ingestible(invocation: Invocation) {
    && invocation.status.InvocationCompleted? && invocation.document.Some?
    && invocation.document.value.wellFormed && NoRepeats(invocation.document.value.drafts)
  }

  predicate Malformed(invocation: Invocation) {
    invocation.status.InvocationCompleted? && invocation.document.Some? && !invocation.document.value.wellFormed
  }

  /** What the caller is told once the Worker answered. */
  predicate ToldAfter(invocation: Invocation, status: LoopStatus) {
    var drafts := if invocation.document.Some? then invocation.document.value.drafts else [];
    && (status.ObservationProduced? <==> Ingestible(invocation) && drafts != [])
    && (status.ReauthorizationNeeded? <==>
          Ingestible(invocation) && drafts == [] && Reports(invocation, ReauthorizationRequired))
    && (status.NoObservationMade? <==>
          || (invocation.status.InvocationCompleted? && invocation.document.None?)
          || (Ingestible(invocation) && drafts == [] && !Reports(invocation, ReauthorizationRequired)))
    && (status.InvocationFailed? <==> !invocation.status.InvocationCompleted? || Malformed(invocation))
    && (status.TransactionRaised? <==>
          !Malformed(invocation) && invocation.status.InvocationCompleted? && !NoRepeats(drafts))
  }

  /** What the tables say once the Worker answered: states, result and observations. */
  ghost predicate LeftAfter(db: Db, r: RequestId, invocation: Invocation, after: Db)
    requires r in db.attempts
  {
    var x, completed := db.attempts[r].experiment, invocation.status.InvocationCompleted?;
    && r in after.attempts && x in after.experiments
    && var attempt, experiment := after.attempts[r].state, after.experiments[x].state;
    && (attempt.AttemptCompleted? <==> completed && !Malformed(invocation))
    && (attempt.TimedOut? <==> invocation.status.InvocationTimedOut?)
    && (attempt.Cancelled? <==> invocation.status.InvocationCancelled?)
    && (attempt.AttemptFailed? <==>
          invocation.status in {StartFailed, ProcessFailed, ProtocolError, ContractInvalid} || Malformed(invocation))
    && (experiment.ExperimentBudgetExhausted? <==> Reports(invocation, ResultBudgetExhausted) && !Malformed(invocation))
    && (experiment.ExperimentBlocked? <==> Reports(invocation, ResultBlocked) && !Malformed(invocation))
    && (experiment.ExperimentCancelled? <==> invocation.status.InvocationCancelled?)
    && (experiment.ExecutionSucceeded? <==>
          completed && !Malformed(invocation)
          && !Reports(invocation, ReauthorizationRequired) && !Reports(invocation, ResultBudgetExhausted)
          && !Reports(invocation, ResultBlocked))
    && (experiment.ExecutionFailed? <==> (!completed && !invocation.status.InvocationCancelled?) || Malformed(invocation))
    && (experiment.AuthorizationCheck? <==> Reports(invocation, ReauthorizationRequired) && !Malformed(invocation))
    && (if Ingestible(invocation) then
          && after.results == db.results[r := WorkerResult(x, invocation.document.value.status)]
          && (forall o :: o in after.observations <==>
                o in db.observations || (o.request == r && o.key in invocation.document.value.drafts))
        else after.results == db.results && after.observations == db.observations)
  }

  /** Ingestion after a recorded outcome, for a request without a result. */
  lemma FirstDocument(db: Db, limits: Limits, r: RequestId, document: WorkerDocument)
    requires SpineInv(db, limits) && r in db.attempts && r !in db.results
    ensures
      var after := IngestOutcomeOf(db, r, document);
      var x := db.attempts[r].experiment;
      && (after.outcome.RejectedInvalidInvocation? <==> !document.wellFormed)
      && (after.outcome.Raised? <==> document.wellFormed && !NoRepeats(document.drafts))
      && (after.outcome.NoObservation? <==> document.wellFormed && document.drafts == [])
      && (after.outcome.Ingested? <==> document.wellFormed && NoRepeats(document.drafts) && document.drafts != [])
      && (after.outcome.Raised? ==> after.db == db)
      && (after.outcome.RejectedInvalidInvocation? ==>
            OnlyStatesMoved(db, after.db, r) && after.db.attempts[r].state.AttemptFailed?
            && after.db.experiments[x].state.ExecutionFailed?)
      && (Accepted(after.outcome) ==>
            && after.db.attempts == db.attempts && after.db.experiments == db.experiments && after.db.ledger == db.ledger
            && after.db.results == db.results[r := WorkerResult(x, document.status)]
            && (forall o :: o in after.db.observations <==>
                  o in db.observations || (o.request == r && o.key in document.drafts)))
  {
    var delivery := DeliveryFor(db, r, document);
    FirstIngestionExactly(db, delivery);
    if Accepted(Ingest(db, delivery).outcome) {
      FirstIngestionAdds(db, delivery);
    }
  }

  /** Between the call and its outcome: the store the outcome is recorded in. */
  lemma AnswerDecides(db: Db, limits: Limits, r: RequestId, invocation: Invocation)
    requires SpineInv(db, limits) && r in db.attempts && !db.attempts[r].state.Authorized? && r !in db.results
    ensures
      var outcome := AfterInvocation(db, r, Answer(invocation, true));
      && outcome.invoked && ToldAfter(invocation, outcome.status) && LeftAfter(db, r, invocation, outcome.db)
      && outcome.db.ledger == db.ledger
  {
    OutcomeIsRecordedAs(db, r, invocation);
    if invocation.status.InvocationCompleted? && invocation.document.Some? {
      DocumentDecides(db, limits, r, invocation);
    }
  }

  lemma DocumentDecides(db: Db, limits: Limits, r: RequestId, invocation: Invocation)
    requires SpineInv(db, limits) && r in db.attempts && !db.attempts[r].state.Authorized? && r !in db.results
    requires invocation.status.InvocationCompleted? && invocation.document.Some?
    ensures
      var outcome := AfterInvocation(db, r, Answer(invocation, true));
      && outcome.invoked && ToldAfter(invocation, outcome.status) && LeftAfter(db, r, invocation, outcome.db)
      && outcome.db.ledger == db.ledger
  {
    OutcomeIsRecordedAs(db, r, invocation);
    RecordOutcomeKeepsSpine(db, limits, r, invocation);
    FirstDocument(RecordOutcome(db, r, invocation), limits, r, invocation.document.value);
  }

  /** A request that has its result: a second well-formed document is reported as observations and adds no row. */
  lemma AnsweredAgain(db: Db, limits: Limits, r: RequestId, invocation: Invocation)
    requires SpineInv(db, limits) && r in db.attempts && r in db.results
    requires invocation.status.InvocationCompleted? && invocation.document.Some? && invocation.document.value.wellFormed
    ensures
      var outcome := AfterInvocation(db, r, Answer(invocation, true));
      outcome.status.ObservationProduced? && OnlyStatesMoved(db, outcome.db, r)
  {
  }

  /**
    A dispatch that goes out and whose outcome is recorded: what the caller is told and what the tables say depends on the
    Worker's answer as `ToldAfter` and `LeftAfter` list it, and the ledger is as the dispatch left it.
   */
  lemma {:induction false} DispatchEndsExactly(db: Db, limits: Limits, r: RequestId, answer: Answer)
    requires SpineInv(db, limits) && r in db.attempts && db.attempts[r].state.Authorized?
    requires DispatchOn(db, limits, r, answer).invoked && answer.stored
    ensures
      var outcome := DispatchOn(db, limits, r, answer);
      && ToldAfter(answer.invocation, outcome.status) && LeftAfter(db, r, answer.invocation, outcome.db)
      && outcome.db.ledger == DispatchOn(db, limits, r, answer.(stored := false)).db.ledger
  {
    var amount := RequestAmount(db.ledger, limits, db.attempts[r]).value;
    var begun := BeginDispatch(db, limits, r, amount).value;
    DispatchKeepsSpine(db, limits, r, amount, begun);
    assert r !in db.results;
    AnswerDecides(begun, limits, r, answer.invocation);
    assert answer == Answer(answer.invocation, true);
  }

  // ------------------------------------------------------------------ authorizing

  /** What a verdict on a live experiment without attempts tells the caller, and which rows it writes. */
  lemma AuthorizationAnswers(db: Db, x: ExperimentId, r: RequestId, verdict: Verdict, plan: PlanBinding)
    requires x in db.experiments && !TerminalExperiment(db.experiments[x].state)
    ensures
      var result := AuthorizeWrite(db, x, r, verdict, plan);
      var decided := verdict.Decided? && r !in db.attempts && DecisionAudit(r) !in db.audits;
      && (result.authorized <==> decided && verdict.decision.Allow?)
      && (result.status.AuthorizedNotDispatched? <==> result.authorized)
      && (result.status.InputRejected? <==> verdict.RejectedInput?)
      && (result.status.HumanReviewRequired? <==> decided && verdict.decision.RequireReview?)
      && (result.status.TransactionRaised? <==> verdict.Decided? && !decided)
      && (result.status.DispatchDenied? <==>
            verdict.UnboundCapability? || verdict.RateLimited? || (decided && verdict.decision.Deny?))
      && result.db.audits == (if decided then db.audits[DecisionAudit(r) := ExecutionDecided(verdict.decision)] else db.audits)
      && result.db == db.(audits := result.db.audits, attempts := result.db.attempts, experiments := result.db.experiments)
      && (if result.authorized
          then result.db.attempts
               == db.attempts[r := Attempt(x, db.experiments[x].budget, plan.capability, plan.reusesConnection,
                                           plan.sideEffectLevel, Authorized)]
          else result.db.attempts == db.attempts)
      && x in result.db.experiments
      && result.db.experiments == db.experiments[x := db.experiments[x].(state := result.db.experiments[x].state)]
      && var state := result.db.experiments[x].state;
      && (state.ExperimentBlocked? <==> verdict.RateLimited? || (decided && verdict.decision.Deny? && !verdict.budgetExhausted))
      && (state.ExperimentBudgetExhausted? <==> decided && verdict.decision.Deny? && verdict.budgetExhausted)
      && (result.authorized ==> state.ReadyToRun?)
      && (decided && verdict.decision.RequireReview? ==> state.AuthorizationCheck?)
      && (!decided && !verdict.RateLimited? ==> result.db == db)
  {
  }

  /** What re-entering says of an experiment, from its first listed attempt. */
  lemma ReentryAnswers(db: Db, x: ExperimentId, first: Option<RequestId>)
    requires first.Some? ==> first.value in db.attempts
    ensures
      var known, attempted := x in db.experiments, x in db.experiments && first.Some?;
      var reentry := Reenter(db, x, first);
      && (reentry.status.None? <==> known && first.None? && !TerminalExperiment(db.experiments[x].state))
      && (reentry.status == Some(InputRejected) <==> !known)
      && (reentry.status == Some(OutcomeUnknown) <==> attempted && OpenAttempt(db.attempts[first.value]))
      && (reentry.status == Some(AuthorizedNotDispatched) <==> attempted && db.attempts[first.value].state.Authorized?)
      && (reentry.status == Some(ReauthorizationNeeded) <==>
            attempted && db.attempts[first.value].state.AttemptCompleted?
            && exists r :: r in db.results && db.results[r].experiment == x && db.results[r].status.ReauthorizationRequired?)
      && (if attempted && db.attempts[first.value].state.Dispatching?
          then OnlyStatesMoved(db, reentry.db, first.value) && reentry.db.attempts[first.value].state.UnknownOutcome?
               && reentry.db.experiments == db.experiments
          else reentry.db == db)
  {
  }

  // ------------------------------------------------------------------ the whole use case

  function NewAttempt(db: Db, x: ExperimentId, plan: PlanBinding): Attempt
    requires x in db.experiments
  {
    Attempt(x, db.experiments[x].budget, plan.capability, plan.reusesConnection, plan.sideEffectLevel, Authorized)
  }

  /**
    Executing an experiment reaches the Worker if and only if it is live and has no attempt, Core allows it under a fresh
    request, and its budget can pay for the plan.
   */
  lemma {:induction false} WorkerIsReachedExactly(
    db: Db, limits: Limits, x: ExperimentId, r: RequestId, verdict: Verdict, plan: PlanBinding, answer: Answer,
    first: Option<RequestId>)
    requires SpineInv(db, limits) && ListedFirst(db, x, first)
    ensures ExecuteOn(db, limits, x, r, verdict, plan, answer, first).invoked <==>
            && x in db.experiments && !TerminalExperiment(db.experiments[x].state) && !HasAttemptFor(db, x)
            && verdict.Decided? && verdict.decision.Allow?
            && r !in db.attempts && DecisionAudit(r) !in db.audits
            && Affordable(limits, db.ledger, NewAttempt(db, x, plan))
  {
    var reentry := Reenter(db, x, first);
    ReentryAnswers(db, x, first);
    if reentry.status.None? {
      var authorized := AuthorizeWrite(db, x, r, verdict, plan);
      AuthorizationAnswers(db, x, r, verdict, plan);
      if authorized.authorized {
        AuthorizeKeepsSpine(db, limits, x, r, verdict, plan, authorized.db);
        DispatchGoesOutExactly(authorized.db, limits, r, answer);
      }
    }
  }

  /** What reaches the Worker is the dispatch of the attempt that the same call authorized. */
  lemma {:induction false} ExecutedIsDispatched(
    db: Db, limits: Limits, x: ExperimentId, r: RequestId, verdict: Verdict, plan: PlanBinding, answer: Answer,
    first: Option<RequestId>, authorized: Db)
    requires SpineInv(db, limits) && ListedFirst(db, x, first)
    requires ExecuteOn(db, limits, x, r, verdict, plan, answer, first).invoked
    requires x in db.experiments && authorized == AuthorizeWrite(db, x, r, verdict, plan).db
    ensures ExecuteOn(db, limits, x, r, verdict, plan, answer, first) == DispatchOn(authorized, limits, r, answer)
    ensures SpineInv(authorized, limits) && r in authorized.attempts && authorized.attempts[r] == NewAttempt(db, x, plan)
    ensures authorized.results == db.results && authorized.observations == db.observations && authorized.ledger == db.ledger
  {
    ReentryAnswers(db, x, first);
    AuthorizationAnswers(db, x, r, verdict, plan);
    AuthorizeKeepsSpine(db, limits, x, r, verdict, plan, authorized);
  }

  /** And then a well-formed document with new, distinct drafts ends in observations, a completed attempt and success. */
  lemma {:induction false} GoodAnswerSucceeds(
    db: Db, limits: Limits, x: ExperimentId, r: RequestId, verdict: Verdict, plan: PlanBinding, answer: Answer,
    first: Option<RequestId>)
    requires SpineInv(db, limits) && ListedFirst(db, x, first)
    requires ExecuteOn(db, limits, x, r, verdict, plan, answer, first).invoked && answer.stored
    requires Ingestible(answer.invocation) && Reports(answer.invocation, Succeeded)
    ensures
      var outcome := ExecuteOn(db, limits, x, r, verdict, plan, answer, first);
      && outcome.status == (if answer.invocation.document.value.drafts == [] then NoObservationMade else ObservationProduced)
      && r in outcome.db.attempts && outcome.db.attempts[r].state.AttemptCompleted?
      && x in outcome.db.experiments && outcome.db.experiments[x].state.ExecutionSucceeded?
      && outcome.db.results == db.results[r := WorkerResult(x, Succeeded)]
      && (forall o :: o in outcome.db.observations <==>
            o in db.observations || (o.request == r && o.key in answer.invocation.document.value.drafts))
  {
    WorkerIsReachedExactly(db, limits, x, r, verdict, plan, answer, first);
    var authorized := AuthorizeWrite(db, x, r, verdict, plan).db;
    ExecutedIsDispatched(db, limits, x, r, verdict, plan, answer, first, authorized);
    DispatchEndsExactly(authorized, limits, r, answer);
  }
}
