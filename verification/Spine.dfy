/**
  What every committed transaction keeps true of the execution tables: attempts and ledger agree,
  every attempt has its ALLOW audit, every result belongs to a dispatched attempt.
 */
module Spine {
  import opened Wrappers
  import opened Ledger
  import opened Store
  import opened Ingestion
  import opened Execution

  predicate DispatchResource(resource: Resource) {
    resource.WorkerInvocation? || resource.Request?
  }

  /** An attempt that left AUTHORIZED has both its dispatch rows. */
  ghost predicate DispatchedAreCharged(db: Db) {
    forall r :: r in db.attempts && !db.attempts[r].state.Authorized? ==>
      && HasKey(db.ledger, db.attempts[r].budget, r, WorkerInvocation)
      && HasKey(db.ledger, db.attempts[r].budget, r, Request)
  }

  predicate ChargesADispatch(db: Db, charge: Charge) {
    && charge.request.Some? && charge.request.value in db.attempts
    && charge.budget == db.attempts[charge.request.value].budget
    && !db.attempts[charge.request.value].state.Authorized?
  }

  /** A dispatch row belongs to an attempt that left AUTHORIZED. */
  ghost predicate ChargedAreDispatched(db: Db) {
    forall i :: 0 <= i < |db.ledger| && DispatchResource(db.ledger[i].resource) ==> ChargesADispatch(db, db.ledger[i])
  }

  ghost predicate AttemptsAllowed(db: Db) {
    forall r :: r in db.attempts ==>
      && DecisionAudit(r) in db.audits && db.audits[DecisionAudit(r)] == ExecutionDecided(Allow)
      && db.attempts[r].experiment in db.experiments
      && db.experiments[db.attempts[r].experiment].budget == db.attempts[r].budget
  }

  ghost predicate ResultsDispatched(db: Db) {
    forall r :: r in db.results ==>
      r in db.attempts && !db.attempts[r].state.Authorized? && db.results[r].experiment == db.attempts[r].experiment
  }

  ghost predicate SpineInv(db: Db, limits: Limits) {
    && ValidLedger(db.ledger, limits)
    && DispatchedAreCharged(db) && ChargedAreDispatched(db)
    && AttemptsAllowed(db) && ResultsDispatched(db) && Provenance(db)
  }

  // ------------------------------------------------------------------ what it says

  ghost predicate OnlyRow(ledger: seq<Charge>, i: nat, r: RequestId, resource: Resource)
    requires i < |ledger|
  {
    forall j :: 0 <= j < |ledger| && ledger[j].request == Some(r) && ledger[j].resource == resource ==> j == i
  }

  ghost predicate ChargedOnce(db: Db, r: RequestId, resource: Resource) {
    exists i :: 0 <= i < |db.ledger| && db.ledger[i].request == Some(r) && db.ledger[i].resource == resource
                && OnlyRow(db.ledger, i, r, resource)
  }

  /** A dispatch row of a request is unique over all budgets. */
  lemma DispatchRowIsUnique(db: Db, limits: Limits, i: nat, r: RequestId, resource: Resource)
    requires SpineInv(db, limits) && DispatchResource(resource)
    requires i < |db.ledger| && db.ledger[i].request == Some(r) && db.ledger[i].resource == resource
    ensures OnlyRow(db.ledger, i, r, resource)
  {
    assert ChargesADispatch(db, db.ledger[i]);
    forall j | 0 <= j < |db.ledger| && db.ledger[j].request == Some(r) && db.ledger[j].resource == resource
      ensures j == i
    {
      assert ChargesADispatch(db, db.ledger[j]);
    }
  }

  /**
    Ledger and attempt states agree: an attempt has left AUTHORIZED exactly when its request has one
    WORKER_INVOCATION row and one REQUEST row, and never has one without the other.
   */
  lemma {:induction false} LedgerAgreesWithAttempt(db: Db, limits: Limits, r: RequestId)
    requires SpineInv(db, limits) && r in db.attempts
    ensures !db.attempts[r].state.Authorized? <==> ChargedOnce(db, r, WorkerInvocation)
    ensures !db.attempts[r].state.Authorized? <==> ChargedOnce(db, r, Request)
  {
    forall resource | DispatchResource(resource)
      ensures !db.attempts[r].state.Authorized? <==> ChargedOnce(db, r, resource)
    {
      if !db.attempts[r].state.Authorized? {
        assert HasKey(db.ledger, db.attempts[r].budget, r, resource);
        var i :| 0 <= i < |db.ledger| && db.ledger[i].request == Some(r) && db.ledger[i].resource == resource;
        DispatchRowIsUnique(db, limits, i, r, resource);
      }
      if ChargedOnce(db, r, resource) {
        var i :| 0 <= i < |db.ledger| && db.ledger[i].request == Some(r) && db.ledger[i].resource == resource;
        assert ChargesADispatch(db, db.ledger[i]);
      }
    }
  }

  // ------------------------------------------------------------------ transactions that only relabel states

  /** Same rows up to experiment states and to attempt states on the same side of AUTHORIZED. */
  ghost predicate Relabelled(db: Db, db': Db) {
    && db'.ledger == db.ledger && db'.audits == db.audits
    && db'.results == db.results && db'.observations == db.observations
    && (forall x :: x in db.experiments ==> x in db'.experiments && db'.experiments[x].budget == db.experiments[x].budget)
    && (forall r :: r in db'.attempts <==> r in db.attempts)
    && (forall r :: r in db.attempts ==>
          && db'.attempts[r].(state := db.attempts[r].state) == db.attempts[r]
          && db'.attempts[r].state.Authorized? == db.attempts[r].state.Authorized?)
  }

  lemma RelabelKeepsSpine(db: Db, db': Db, limits: Limits)
    requires SpineInv(db, limits) && Relabelled(db, db')
    ensures SpineInv(db', limits)
  {
    assert ChargedAreDispatched(db') by {
      forall i | 0 <= i < |db'.ledger| && DispatchResource(db'.ledger[i].resource)
        ensures ChargesADispatch(db', db'.ledger[i])
      {
        assert ChargesADispatch(db, db.ledger[i]);
      }
    }
    forall r | r in db'.results ensures ObservationsOf(db', r) == ObservationsOf(db, r) {
    }
    assert Provenance(db');
  }

  lemma RecordOutcomeKeepsSpine(db: Db, limits: Limits, r: RequestId, invocation: Invocation)
    requires SpineInv(db, limits) && r in db.attempts && !db.attempts[r].state.Authorized?
    ensures SpineInv(RecordOutcome(db, r, invocation), limits)
  {
    RelabelKeepsSpine(db, RecordOutcome(db, r, invocation), limits);
  }

  lemma MarkUnknownKeepsSpine(db: Db, limits: Limits, r: RequestId)
    requires SpineInv(db, limits) && r in db.attempts && !db.attempts[r].state.Authorized?
    ensures SpineInv(MarkUnknown(db, r), limits)
  {
    RelabelKeepsSpine(db, MarkUnknown(db, r), limits);
  }

  // ------------------------------------------------------------------ the other transactions

  /** Provenance does not look at decision audits. */
  lemma DecisionAuditKeepsProvenance(db: Db, r: RequestId, event: AuditEvent)
    requires Provenance(db)
    ensures Provenance(db.(audits := db.audits[DecisionAudit(r) := event]))
  {
    var db' := db.(audits := db.audits[DecisionAudit(r) := event]);
    forall q ensures ObservationsOf(db', q) == ObservationsOf(db, q) {
    }
  }

  /** A refused authorization adds at most a decision audit of a fresh request. */
  lemma AuditKeepsSpine(db: Db, limits: Limits, r: RequestId, decision: CoreDecision)
    requires SpineInv(db, limits) && FreshRequest(db, r)
    ensures SpineInv(db.(audits := db.audits[DecisionAudit(r) := ExecutionDecided(decision)]), limits)
  {
    var db' := db.(audits := db.audits[DecisionAudit(r) := ExecutionDecided(decision)]);
    DecisionAuditKeepsProvenance(db, r, ExecutionDecided(decision));
    assert ChargedAreDispatched(db') by {
      forall i | 0 <= i < |db'.ledger| && DispatchResource(db'.ledger[i].resource)
        ensures ChargesADispatch(db', db'.ledger[i])
      {
        assert ChargesADispatch(db, db.ledger[i]);
      }
    }
  }

  lemma CreateAttemptKeepsSpine(db: Db, limits: Limits, x: ExperimentId, r: RequestId, plan: PlanBinding)
    requires SpineInv(db, limits) && FreshRequest(db, r) && x in db.experiments
    ensures SpineInv(CreateAttempt(db, x, r, plan), limits)
  {
    var audited := db.(audits := db.audits[DecisionAudit(r) := ExecutionDecided(Allow)]);
    AuditKeepsSpine(db, limits, r, Allow);
    var ready := SetExperiment(audited, x, ReadyToRun);
    RelabelKeepsSpine(audited, ready, limits);
    var db' := CreateAttempt(db, x, r, plan);
    assert db' == ready.(attempts := db'.attempts);
    AddAttemptKeepsSpine(ready, db', limits, r);
  }

  lemma AddAttemptKeepsSpine(db: Db, db': Db, limits: Limits, r: RequestId)
    requires SpineInv(db, limits) && r !in db.attempts && r in db'.attempts
    requires db' == db.(attempts := db.attempts[r := db'.attempts[r]])
    requires db'.attempts[r].state.Authorized?
    requires DecisionAudit(r) in db.audits && db.audits[DecisionAudit(r)] == ExecutionDecided(Allow)
    requires db'.attempts[r].experiment in db.experiments
    requires db.experiments[db'.attempts[r].experiment].budget == db'.attempts[r].budget
    ensures SpineInv(db', limits)
  {
    forall i | 0 <= i < |db'.ledger| && DispatchResource(db'.ledger[i].resource)
      ensures ChargesADispatch(db', db'.ledger[i])
    {
      assert ChargesADispatch(db, db.ledger[i]);
    }
    forall q | q in db'.results ensures ObservationsOf(db', q) == ObservationsOf(db, q) {
    }
  }

  /** An authorization relabels, or audits a refusal, or creates an attempt. */
  lemma AuthorizeShape(db: Db, x: ExperimentId, r: RequestId, verdict: Verdict, plan: PlanBinding, db': Db)
    requires x in db.experiments && db' == AuthorizeWrite(db, x, r, verdict, plan).db
    ensures
      if verdict.Decided? && FreshRequest(db, r) then
        if verdict.decision.Allow? then db' == CreateAttempt(db, x, r, plan)
        else Relabelled(db.(audits := db.audits[DecisionAudit(r) := ExecutionDecided(verdict.decision)]), db')
      else Relabelled(db, db')
  {
  }

  lemma {:induction false} AuthorizeKeepsSpine(
    db: Db, limits: Limits, x: ExperimentId, r: RequestId, verdict: Verdict, plan: PlanBinding, db': Db)
    requires SpineInv(db, limits) && x in db.experiments
    requires db' == AuthorizeWrite(db, x, r, verdict, plan).db
    ensures SpineInv(db', limits)
  {
    AuthorizeShape(db, x, r, verdict, plan, db');
    if verdict.Decided? && FreshRequest(db, r) {
      if verdict.decision.Allow? {
        CreateAttemptKeepsSpine(db, limits, x, r, plan);
      } else {
        AuditKeepsSpine(db, limits, r, verdict.decision);
        RelabelKeepsSpine(db.(audits := db.audits[DecisionAudit(r) := ExecutionDecided(verdict.decision)]), db', limits);
      }
    } else {
      RelabelKeepsSpine(db, db', limits);
    }
  }

  /** Recording a consumption that is not a dispatch charge. */
  lemma ConsumptionKeepsSpine(db: Db, limits: Limits, orchestrated: bool, charge: Charge)
    requires SpineInv(db, limits) && !DispatchResource(charge.resource)
    ensures SpineInv(db.(ledger := RecordConsumption(db.ledger, limits, orchestrated, charge).ledger), limits)
  {
    var result := RecordConsumption(db.ledger, limits, orchestrated, charge);
    RecordConsumptionKeepsLedgerValid(db.ledger, limits, orchestrated, charge, result);
    LongerLedgerKeepsSpine(db, limits, result.ledger);
  }

  lemma LongerLedgerKeepsSpine(db: Db, limits: Limits, after: seq<Charge>)
    requires SpineInv(db, limits) && ValidLedger(after, limits)
    requires db.ledger <= after
    requires forall i :: |db.ledger| <= i < |after| && DispatchResource(after[i].resource) ==> ChargesADispatch(db, after[i])
    ensures SpineInv(db.(ledger := after), limits)
  {
    var db' := db.(ledger := after);
    forall r | r in db'.attempts && !db'.attempts[r].state.Authorized?
      ensures HasKey(after, db.attempts[r].budget, r, WorkerInvocation) && HasKey(after, db.attempts[r].budget, r, Request)
    {
      KeyPersists(db.ledger, after, db.attempts[r].budget, r, WorkerInvocation);
      KeyPersists(db.ledger, after, db.attempts[r].budget, r, Request);
    }
    forall i | 0 <= i < |after| && DispatchResource(after[i].resource)
      ensures ChargesADispatch(db', after[i])
    {
      if i < |db.ledger| {
        assert after[i] == db.ledger[i];
      }
      assert ChargesADispatch(db, after[i]);
    }
    forall q | q in db'.results ensures ObservationsOf(db', q) == ObservationsOf(db, q) {
    }
  }

  /** The rows a dispatch adds and the states it sets. */
  lemma DispatchShape(db: Db, limits: Limits, r: RequestId, amount: Positive, db': Db, marked: Db)
    requires ValidLedger(db.ledger, limits) && r in db.attempts
    requires BeginDispatch(db, limits, r, amount) == Some(db')
    requires marked == SetExperiment(SetAttempt(db, r, Dispatching), db.attempts[r].experiment, RunningExperiment)
    ensures db' == marked.(ledger := db'.ledger)
    ensures ValidLedger(db'.ledger, limits) && db.ledger <= db'.ledger
    ensures HasKey(db'.ledger, db.attempts[r].budget, r, WorkerInvocation)
    ensures HasKey(db'.ledger, db.attempts[r].budget, r, Request)
    ensures forall i :: |db.ledger| <= i < |db'.ledger| ==>
                          db'.ledger[i].request == Some(r) && db'.ledger[i].budget == db.attempts[r].budget
  {
    var attempt := db.attempts[r];
    var first := InsertWithinAllowance(db.ledger, limits, true, DispatchCharge(attempt, r, WorkerInvocation, 1)).ledger;
    ChargeDispatchRecordsBothKeys(db.ledger, limits, attempt, r, amount, first, db'.ledger);
  }

  /** Leaving AUTHORIZED together with both charges. */
  lemma {:induction false} DispatchKeepsSpine(db: Db, limits: Limits, r: RequestId, amount: Positive, db': Db)
    requires SpineInv(db, limits) && r in db.attempts
    requires BeginDispatch(db, limits, r, amount) == Some(db')
    ensures SpineInv(db', limits)
  {
    var marked := SetExperiment(SetAttempt(db, r, Dispatching), db.attempts[r].experiment, RunningExperiment);
    DispatchShape(db, limits, r, amount, db', marked);
    if db.attempts[r].state.Authorized? {
      LeaveAuthorizedKeepsSpine(db, marked, limits, r, db'.ledger);
    } else {
      RelabelKeepsSpine(db, marked, limits);
      LongerLedgerKeepsSpine(marked, limits, db'.ledger);
    }
  }

  lemma LeaveAuthorizedKeepsSpine(db: Db, marked: Db, limits: Limits, r: RequestId, after: seq<Charge>)
    requires SpineInv(db, limits) && r in db.attempts
    requires marked == SetExperiment(SetAttempt(db, r, Dispatching), db.attempts[r].experiment, RunningExperiment)
    requires ValidLedger(after, limits) && db.ledger <= after
    requires HasKey(after, db.attempts[r].budget, r, WorkerInvocation) && HasKey(after, db.attempts[r].budget, r, Request)
    requires forall i :: |db.ledger| <= i < |after| ==> after[i].request == Some(r) && after[i].budget == db.attempts[r].budget
    ensures SpineInv(marked.(ledger := after), limits)
  {
    var db' := marked.(ledger := after);
    forall q | q in db'.attempts && !db'.attempts[q].state.Authorized?
      ensures HasKey(after, db'.attempts[q].budget, q, WorkerInvocation) && HasKey(after, db'.attempts[q].budget, q, Request)
    {
      if q != r {
        KeyPersists(db.ledger, after, db.attempts[q].budget, q, WorkerInvocation);
        KeyPersists(db.ledger, after, db.attempts[q].budget, q, Request);
      }
    }
    forall i | 0 <= i < |after| && DispatchResource(after[i].resource)
      ensures ChargesADispatch(db', after[i])
    {
      if i < |db.ledger| {
        assert after[i] == db.ledger[i];
        assert ChargesADispatch(db, db.ledger[i]);
      }
    }
    forall q | q in db'.results ensures ObservationsOf(db', q) == ObservationsOf(db, q) {
    }
  }

  /** Ingestion of a dispatched request's document, including the write that follows a rejection. */
  lemma {:induction false} IngestionKeepsSpine(db: Db, limits: Limits, r: RequestId, document: WorkerDocument)
    requires SpineInv(db, limits) && r in db.attempts && !db.attempts[r].state.Authorized?
    ensures SpineInv(IngestOutcomeOf(db, r, document).db, limits)
  {
    var delivery := DeliveryFor(db, r, document);
    var ingested := Ingest(db, delivery).db;
    IngestKeepsSpine(db, limits, delivery, ingested);
    if Ingest(db, delivery).outcome.RejectedInvalidInvocation? {
      FailedOutcomeKeepsSpine(ingested, limits, r, db.attempts[r].experiment);
    }
  }

  lemma FailedOutcomeKeepsSpine(db: Db, limits: Limits, r: RequestId, x: ExperimentId)
    requires SpineInv(db, limits) && r in db.attempts && !db.attempts[r].state.Authorized?
    ensures SpineInv(SetExperiment(SetAttempt(db, r, AttemptFailed), x, ExecutionFailed), limits)
  {
    var failed := SetExperiment(SetAttempt(db, r, AttemptFailed), x, ExecutionFailed);
    FailingRelabels(db, r, x, failed);
    RelabelKeepsSpine(db, failed, limits);
  }

  lemma FailingRelabels(db: Db, r: RequestId, x: ExperimentId, failed: Db)
    requires r in db.attempts && !db.attempts[r].state.Authorized?
    requires failed == SetExperiment(SetAttempt(db, r, AttemptFailed), x, ExecutionFailed)
    ensures Relabelled(db, failed)
  {
  }

  lemma IngestKeepsSpine(db: Db, limits: Limits, delivery: Delivery, db': Db)
    requires SpineInv(db, limits) && db' == Ingest(db, delivery).db
    requires delivery.request in db.attempts && !db.attempts[delivery.request].state.Authorized?
    requires delivery.experiment == db.attempts[delivery.request].experiment
    ensures SpineInv(db', limits)
  {
    IngestKeepsProvenance(db, delivery);
    IngestKeepsDecisions(db, delivery, db');
    TransferKeepsSpine(db, db', limits);
  }

  lemma TransferKeepsSpine(db: Db, db': Db, limits: Limits)
    requires SpineInv(db, limits) && Provenance(db') && ResultsDispatched(db')
    requires db'.ledger == db.ledger && db'.attempts == db.attempts && db'.experiments == db.experiments
    requires forall a :: a in db.audits ==> a in db'.audits && db'.audits[a] == db.audits[a]
    ensures SpineInv(db', limits)
  {
    assert ChargedAreDispatched(db') by {
      forall i | 0 <= i < |db'.ledger| && DispatchResource(db'.ledger[i].resource)
        ensures ChargesADispatch(db', db'.ledger[i])
      {
        assert ChargesADispatch(db, db.ledger[i]);
      }
    }
  }

  lemma IngestKeepsDecisions(db: Db, delivery: Delivery, db': Db)
    requires db' == Ingest(db, delivery).db
    ensures forall a :: a in db.audits ==> a in db'.audits && db'.audits[a] == db.audits[a]
    ensures db'.ledger == db.ledger && db'.attempts == db.attempts && db'.experiments == db.experiments
    ensures db'.results == db.results
            || db'.results == db.results[delivery.request := WorkerResult(delivery.experiment, delivery.status)]
  {
    if db' != db {
      var head := db.audits[ResultAudit(delivery.request) := ResultIngested(|delivery.drafts|)];
      InsertedObservationAudits(head, delivery.request, delivery.drafts, db'.audits);
    }
  }
}
