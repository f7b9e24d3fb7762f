/** Invariants of every run, fenced or not: the execution tables agree, and every Worker call spends its own dispatch. */
module Protocol {
  import opened Wrappers
  import opened Ledger
  import opened Store
  import opened Ingestion
  import opened Execution
  import opened Spine
  import opened Runs

  // ------------------------------------------------------------------ attempts, ledger and clearances

  /** A cleared request has left AUTHORIZED for good. */
  ghost predicate ClearedHaveLeft(db: Db, cleared: seq<Clearance>) {
    forall k :: 0 <= k < |cleared| ==> Left(db, cleared[k].request) && db.attempts[cleared[k].request].budget == cleared[k].budget
  }

  predicate Left(db: Db, r: RequestId) {
    r in db.attempts && !db.attempts[r].state.Authorized?
  }

  ghost predicate WasCleared(cleared: seq<Clearance>, r: RequestId) {
    exists k :: 0 <= k < |cleared| && cleared[k].request == r
  }

  ghost predicate LeftAreCleared(db: Db, cleared: seq<Clearance>) {
    forall r :: Left(db, r) ==> WasCleared(cleared, r)
  }

  ghost predicate SeenHaveLeft(db: Db, agents: seq<Agent>) {
    forall i :: 0 <= i < |agents| && agents[i].doing.SawDispatching? ==> Left(db, agents[i].doing.request)
  }

  ghost predicate TablesInv(s: State) {
    && SpineInv(s.db, s.limits)
    && ClearedHaveLeft(s.db, s.past.cleared) && LeftAreCleared(s.db, s.past.cleared)
    && SeenHaveLeft(s.db, s.agents)
  }

  /** No attempt disappears, changes its budget or experiment, or comes back to AUTHORIZED. */
  ghost predicate Onward(db: Db, db': Db) {
    forall r :: r in db.attempts ==>
      && r in db'.attempts && db'.attempts[r].budget == db.attempts[r].budget
      && db'.attempts[r].experiment == db.attempts[r].experiment
      && (Left(db, r) ==> Left(db', r))
  }

  /** No attempt leaves AUTHORIZED. */
  ghost predicate NoneLeaves(db: Db, db': Db) {
    forall r :: Left(db', r) ==> Left(db, r)
  }

  lemma OnwardKeepsTables(s: State, s': State)
    requires TablesInv(s) && SpineInv(s'.db, s'.limits)
    requires Onward(s.db, s'.db) && NoneLeaves(s.db, s'.db)
    requires s'.past.cleared == s.past.cleared
    requires SeenHaveLeft(s'.db, s'.agents)
    ensures TablesInv(s')
  {
  }

  lemma AuthorizationIsOnward(db: Db, x: ExperimentId, r: RequestId, verdict: Verdict, plan: PlanBinding)
    requires x in db.experiments
    ensures
      var db' := AuthorizeWrite(db, x, r, verdict, plan).db;
      && Onward(db, db') && NoneLeaves(db, db')
      && db'.ledger == db.ledger && db'.results == db.results
  {
  }

  lemma OutcomeIsOnward(db: Db, r: RequestId, invocation: Invocation)
    requires Left(db, r)
    ensures
      var db' := RecordOutcome(db, r, invocation);
      Onward(db, db') && NoneLeaves(db, db') && db'.results == db.results
  {
  }

  lemma IngestionIsOnward(db: Db, r: RequestId, document: WorkerDocument)
    requires Left(db, r)
    ensures
      var db' := IngestOutcomeOf(db, r, document).db;
      && Onward(db, db') && NoneLeaves(db, db')
      && db'.results.Keys <= db.results.Keys + {r}
  {
    IngestKeepsDecisions(db, DeliveryFor(db, r, document), Ingest(db, DeliveryFor(db, r, document)).db);
  }

  lemma DispatchIsOnward(db: Db, limits: Limits, r: RequestId, amount: Positive, db': Db)
    requires r in db.attempts && BeginDispatch(db, limits, r, amount) == Some(db')
    ensures Onward(db, db') && Left(db', r) && db'.results == db.results
    ensures forall q :: Left(db', q) ==> q == r || Left(db, q)
  {
  }

  lemma DispatchKeepsTables(s: State, i: nat)
    requires TablesInv(s)
    ensures TablesInv(DoCommitDispatch(s, i))
  {
    var s' := DoCommitDispatch(s, i);
    if s'.past.cleared != s.past.cleared {
      var r, amount := s.agents[i].doing.request, s.agents[i].doing.amount;
      DispatchKeepsSpine(s.db, s.limits, r, amount, s'.db);
      DispatchIsOnward(s.db, s.limits, r, amount, s'.db);
      DispatchKeepsClearances(s, s', r);
    }
  }

  lemma DispatchKeepsClearances(s: State, s': State, r: RequestId)
    requires TablesInv(s) && SpineInv(s'.db, s'.limits)
    requires Onward(s.db, s'.db) && Left(s'.db, r)
    requires forall q :: Left(s'.db, q) ==> q == r || Left(s.db, q)
    requires |s'.past.cleared| == |s.past.cleared| + 1
    requires s'.past.cleared[..|s.past.cleared|] == s.past.cleared
    requires s'.past.cleared[|s.past.cleared|].request == r
    requires s'.past.cleared[|s.past.cleared|].budget == s'.db.attempts[r].budget
    requires |s'.agents| == |s.agents|
    requires forall j :: 0 <= j < |s.agents| && s'.agents[j].doing.SawDispatching? ==> s'.agents[j].doing == s.agents[j].doing
    ensures TablesInv(s')
  {
    var cleared, cleared' := s.past.cleared, s'.past.cleared;
    forall k | 0 <= k < |cleared'|
      ensures Left(s'.db, cleared'[k].request)
      ensures s'.db.attempts[cleared'[k].request].budget == cleared'[k].budget
    {
      assert k < |cleared| ==> cleared'[k] == cleared[k];
    }
    forall q | Left(s'.db, q) ensures WasCleared(cleared', q) {
      if q == r {
        assert cleared'[|cleared|].request == q;
      } else {
        assert WasCleared(cleared, q);
        var k :| 0 <= k < |cleared| && cleared[k].request == q;
        assert cleared'[k] == cleared[k];
      }
    }
  }

  lemma AuthorizationKeepsTables(s: State, i: nat, r: RequestId, verdict: Verdict, plan: PlanBinding, hooked: bool)
    requires TablesInv(s)
    ensures TablesInv(DoCommitAuthorization(s, i, r, verdict, plan, hooked))
  {
    var s' := DoCommitAuthorization(s, i, r, verdict, plan, hooked);
    if s'.db != s.db {
      var x := s.agents[i].doing.experiment;
      AuthorizeKeepsSpine(s.db, s.limits, x, r, verdict, plan, s'.db);
      AuthorizationIsOnward(s.db, x, r, verdict, plan);
      OnwardKeepsTables(s, s');
    }
  }

  lemma OutcomeKeepsTables(s: State, i: nat, invocation: Invocation)
    requires TablesInv(s)
    ensures TablesInv(DoCommitOutcome(s, i, invocation))
  {
    var s' := DoCommitOutcome(s, i, invocation);
    if s' != s {
      var r := s.past.cleared[s.agents[i].doing.ticket].request;
      RecordOutcomeKeepsSpine(s.db, s.limits, r, invocation);
      OutcomeIsOnward(s.db, r, invocation);
      OnwardKeepsTables(s, s');
    }
  }

  lemma IngestionKeepsTables(s: State, i: nat)
    requires TablesInv(s)
    ensures TablesInv(DoCommitIngestion(s, i))
  {
    var s' := DoCommitIngestion(s, i);
    if s' != s {
      var r := s.past.cleared[s.agents[i].doing.ticket].request;
      IngestionKeepsSpine(s.db, s.limits, r, s.agents[i].doing.document);
      IngestionIsOnward(s.db, r, s.agents[i].doing.document);
      OnwardKeepsTables(s, s');
    }
  }

  lemma UnknownKeepsTables(s: State, i: nat)
    requires TablesInv(s)
    ensures TablesInv(DoCommitUnknown(s, i))
  {
    var s' := DoCommitUnknown(s, i);
    if s' != s {
      MarkUnknownKeepsSpine(s.db, s.limits, s.agents[i].doing.request);
      OnwardKeepsTables(s, s');
    }
  }

  lemma ConsumptionKeepsTables(s: State, charge: Charge)
    requires TablesInv(s)
    ensures TablesInv(DoConsume(s, charge))
  {
    if !DispatchResource(charge.resource) {
      ConsumptionKeepsSpine(s.db, s.limits, s.row.Some?, charge);
      OnwardKeepsTables(s, DoConsume(s, charge));
    }
  }

  lemma ExperimentKeepsTables(s: State, x: ExperimentId, budget: BudgetId)
    requires TablesInv(s)
    ensures TablesInv(DoAddExperiment(s, x, budget))
  {
    var s' := DoAddExperiment(s, x, budget);
    if s' != s {
      RelabelKeepsSpine(s.db, s'.db, s.limits);
      OnwardKeepsTables(s, s');
    }
  }

  /** The steps that write execution tables. */
  predicate WritesTables(step: Step) {
    step.AddExperiment? || step.Consume? || step.CommitAuthorization? || step.CommitUnknown?
    || step.CommitDispatch? || step.CommitOutcome? || step.CommitIngestion?
  }

  lemma OtherStepsLeaveTables(s: State, step: Step, s': State)
    requires !WritesTables(step) && s' == Apply(s, step)
    ensures s'.db == s.db && s'.limits == s.limits && s'.past.cleared == s.past.cleared
    ensures s'.past.created == s.past.created
  {
  }

  lemma OtherStepsKeepSeen(s: State, step: Step, s': State)
    requires !WritesTables(step) && s' == Apply(s, step)
    requires SeenHaveLeft(s.db, s.agents)
    ensures SeenHaveLeft(s.db, s'.agents)
  {
  }

  lemma OtherStepsKeepTables(s: State, step: Step, s': State)
    requires TablesInv(s) && !WritesTables(step) && s' == Apply(s, step)
    ensures TablesInv(s')
  {
    OtherStepsLeaveTables(s, step, s');
    OtherStepsKeepSeen(s, step, s');
  }

  lemma StepKeepsTables(s: State, step: Step, s': State)
    requires TablesInv(s) && s' == Apply(s, step)
    ensures TablesInv(s')
  {
    if WritesTables(step) {
      WritersKeepTables(s, step, s');
    } else {
      OtherStepsKeepTables(s, step, s');
    }
  }

  lemma WritersKeepTables(s: State, step: Step, s': State)
    requires TablesInv(s) && s' == Apply(s, step) && WritesTables(step)
    ensures TablesInv(s')
  {
    if step.CommitDispatch? || step.CommitOutcome? || step.CommitIngestion? {
      ExecutorsKeepTables(s, step, s');
    } else {
      match step
      case AddExperiment(x, budget) => ExperimentKeepsTables(s, x, budget);
      case Consume(charge) => ConsumptionKeepsTables(s, charge);
      case CommitAuthorization(i, r, verdict, plan, hooked) => AuthorizationKeepsTables(s, i, r, verdict, plan, hooked);
      case CommitUnknown(i) => UnknownKeepsTables(s, i);
    }
  }

  lemma ExecutorsKeepTables(s: State, step: Step, s': State)
    requires TablesInv(s) && s' == Apply(s, step)
    requires step.CommitDispatch? || step.CommitOutcome? || step.CommitIngestion?
    ensures TablesInv(s')
  {
    match step
    case CommitDispatch(i) => DispatchKeepsTables(s, i);
    case CommitOutcome(i, invocation) => OutcomeKeepsTables(s, i, invocation);
    case CommitIngestion(i) => IngestionKeepsTables(s, i);
  }

  lemma {:induction false} RunKeepsTables(limits: Limits, steps: seq<Step>)
    ensures TablesInv(Run(Initial(limits), steps))
  {
    if steps == [] {
      InitialTables(limits);
    } else {
      RunKeepsTables(limits, steps[..|steps| - 1]);
      StepKeepsTables(Run(Initial(limits), steps[..|steps| - 1]), steps[|steps| - 1], Run(Initial(limits), steps));
    }
  }

  lemma InitialTables(limits: Limits)
    ensures TablesInv(Initial(limits))
  {
  }

  // ------------------------------------------------------------------ tickets

  function TicketOf(doing: Activity): Option<nat> {
    match doing
    case Cleared(ticket) => Some(ticket)
    case Confirmed(ticket) => Some(ticket)
    case Returned(ticket) => Some(ticket)
    case Ingesting(ticket, _) => Some(ticket)
    case _ => None
  }

  ghost predicate Distinct<T(!new)>(items: seq<T>) {
    forall i, j :: 0 <= i < j < |items| ==> items[i] != items[j]
  }

  /** What holding a ticket means for the history. */
  predicate HeldTicket(past: History, doing: Activity) {
    match doing
    case Cleared(ticket) => ticket < |past.cleared| && ticket !in past.passed
    case Confirmed(ticket) => ticket in past.passed && ticket !in past.invoked
    case Returned(ticket) => ticket in past.invoked
    case Ingesting(ticket, _) => ticket in past.invoked
    case _ => true
  }

  ghost predicate TicketsHeld(s: State) {
    && (forall i :: 0 <= i < |s.agents| ==> HeldTicket(s.past, s.agents[i].doing))
    && (forall i, j :: 0 <= i < j < |s.agents| && TicketOf(s.agents[i].doing).Some? ==>
          TicketOf(s.agents[i].doing) != TicketOf(s.agents[j].doing))
  }

  ghost predicate TicketsOrdered(past: History) {
    && Distinct(past.passed) && Distinct(past.invoked)
    && (forall t :: t in past.passed ==> t < |past.cleared|)
    && (forall t :: t in past.invoked ==> t in past.passed)
  }

  ghost predicate TicketsInv(s: State) {
    TicketsOrdered(s.past) && TicketsHeld(s)
  }

  predicate MovesTickets(step: Step) {
    step.CommitDispatch? || step.CheckLease? || step.Invoke? || step.CommitOutcome?
  }

  ghost predicate SameTickets(past: History, past': History) {
    past'.cleared == past.cleared && past'.passed == past.passed && past'.invoked == past.invoked
  }

  /** Other steps keep or drop tickets, and add none to the history. */
  lemma OtherStepsMoveNoTicket(s: State, step: Step, s': State)
    requires !MovesTickets(step) && s' == Apply(s, step)
    ensures SameTickets(s.past, s'.past) && |s.agents| <= |s'.agents|
    ensures forall i :: 0 <= i < |s.agents| ==>
              s'.agents[i].doing == s.agents[i].doing || TicketOf(s'.agents[i].doing).None?
    ensures forall i :: |s.agents| <= i < |s'.agents| ==> TicketOf(s'.agents[i].doing).None?
  {
    OtherStepsKeepHistory(s, step, s');
    forall i | 0 <= i < |s'.agents|
      ensures (i < |s.agents| && s'.agents[i].doing == s.agents[i].doing) || TicketOf(s'.agents[i].doing).None?
    {
      OtherStepsDropTickets(s, step, s', i);
    }
  }

  lemma OtherStepsKeepHistory(s: State, step: Step, s': State)
    requires !MovesTickets(step) && s' == Apply(s, step)
    ensures SameTickets(s.past, s'.past) && |s.agents| <= |s'.agents|
  {
  }

  lemma OtherStepsDropTickets(s: State, step: Step, s': State, i: nat)
    requires !MovesTickets(step) && s' == Apply(s, step) && i < |s'.agents|
    ensures (i < |s.agents| && s'.agents[i].doing == s.agents[i].doing) || TicketOf(s'.agents[i].doing).None?
  {
  }

  lemma NoTicketMoved(s: State, s': State)
    requires TicketsInv(s)
    requires SameTickets(s.past, s'.past) && |s.agents| <= |s'.agents|
    requires forall i :: 0 <= i < |s.agents| ==>
               s'.agents[i].doing == s.agents[i].doing || TicketOf(s'.agents[i].doing).None?
    requires forall i :: |s.agents| <= i < |s'.agents| ==> TicketOf(s'.agents[i].doing).None?
    ensures TicketsInv(s')
  {
    forall i | 0 <= i < |s'.agents| ensures HeldTicket(s'.past, s'.agents[i].doing) {
      if i < |s.agents| {
        assert HeldTicket(s.past, s.agents[i].doing);
      }
    }
  }

  lemma DispatchKeepsTickets(s: State, i: nat)
    requires TicketsInv(s)
    ensures TicketsInv(DoCommitDispatch(s, i))
  {
    var s' := DoCommitDispatch(s, i);
    if |s'.past.cleared| > |s.past.cleared| {
      var ticket := |s.past.cleared|;
      assert ticket !in s.past.passed;
      forall j | 0 <= j < |s.agents|
        ensures HeldTicket(s'.past, s'.agents[j].doing)
        ensures j != i ==> TicketOf(s'.agents[j].doing) != Some(ticket)
      {
        assert HeldTicket(s.past, s.agents[j].doing);
      }
    }
  }

  lemma LeaseCheckKeepsTickets(s: State, i: nat)
    requires TicketsInv(s)
    ensures TicketsInv(DoCheckLease(s, i))
  {
    var s' := DoCheckLease(s, i);
    if |s'.past.passed| > |s.past.passed| {
      assert HeldTicket(s.past, s.agents[i].doing);
      forall j | 0 <= j < |s.agents| ensures HeldTicket(s'.past, s'.agents[j].doing) {
        assert HeldTicket(s.past, s.agents[j].doing);
      }
    }
  }

  lemma InvokeKeepsTickets(s: State, i: nat)
    requires TicketsInv(s)
    ensures TicketsInv(DoInvoke(s, i))
  {
    var s' := DoInvoke(s, i);
    if |s'.past.invoked| > |s.past.invoked| {
      assert HeldTicket(s.past, s.agents[i].doing);
      forall j | 0 <= j < |s.agents| ensures HeldTicket(s'.past, s'.agents[j].doing) {
        assert HeldTicket(s.past, s.agents[j].doing);
      }
    }
  }

  lemma OutcomeKeepsTickets(s: State, i: nat, invocation: Invocation)
    requires TicketsInv(s)
    ensures TicketsInv(DoCommitOutcome(s, i, invocation))
  {
    var s' := DoCommitOutcome(s, i, invocation);
    if s' != s {
      forall j | 0 <= j < |s.agents| ensures HeldTicket(s'.past, s'.agents[j].doing) {
        assert HeldTicket(s.past, s.agents[j].doing);
      }
    }
  }

  lemma OtherStepsKeepTickets(s: State, step: Step, s': State)
    requires TicketsInv(s) && !MovesTickets(step) && s' == Apply(s, step)
    ensures TicketsInv(s')
  {
    OtherStepsMoveNoTicket(s, step, s');
    NoTicketMoved(s, s');
  }

  lemma StepKeepsTickets(s: State, step: Step, s': State)
    requires TicketsInv(s) && s' == Apply(s, step)
    ensures TicketsInv(s')
  {
    match step
    case CommitDispatch(i) => DispatchKeepsTickets(s, i);
    case CheckLease(i) => LeaseCheckKeepsTickets(s, i);
    case Invoke(i) => InvokeKeepsTickets(s, i);
    case CommitOutcome(i, invocation) => OutcomeKeepsTickets(s, i, invocation);
    case _ => OtherStepsKeepTickets(s, step, s');
  }

  lemma {:induction false} RunKeepsTickets(limits: Limits, steps: seq<Step>)
    ensures TicketsInv(Run(Initial(limits), steps))
  {
    if steps != [] {
      RunKeepsTickets(limits, steps[..|steps| - 1]);
      StepKeepsTickets(Run(Initial(limits), steps[..|steps| - 1]), steps[|steps| - 1], Run(Initial(limits), steps));
    }
  }
}
