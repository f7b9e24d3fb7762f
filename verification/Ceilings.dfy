/** The request ceilings handed to browser Workers never add up to more than what the ledger charged for them. */
module Ceilings {
  import opened Wrappers
  import opened Ledger
  import opened Store
  import opened Execution
  import opened Spine
  import opened Runs
  import opened Protocol
  import opened Dispatches
  import opened Fencing
  import opened FencedCalls

  // ------------------------------------------------------------------ per dispatch

  predicate RequestRow(charge: Charge, r: RequestId) {
    charge.request == Some(r) && charge.resource.Request?
  }

  /** An amount that is the browser ceiling or at least all that is left of the budget. */
  predicate Covers(amount: nat, ledger: seq<Charge>, limits: Limits, budget: BudgetId) {
    budget in limits.issued ==>
      amount >= BROWSER_PAGE_MAX_REQUESTS || amount + Total(ledger, budget, Request) >= limits.issued[budget].maxRequests
  }

  predicate BrowserRowCovers(db: Db, limits: Limits, charge: Charge) {
    charge.resource.Request? && charge.request.Some? && charge.request.value in db.attempts
    && db.attempts[charge.request.value].capability.BrowserPage? ==>
      Covers(charge.amount, db.ledger, limits, charge.budget)
  }

  /** What a process holding an attempt's row lock knows about the amount it computed. */
  ghost predicate Reserved(db: Db, limits: Limits, r: RequestId, amount: Positive) {
    && r in db.attempts
    && (db.attempts[r].capability.BrowserPage? ==>
      && amount <= BROWSER_PAGE_MAX_REQUESTS && Covers(amount, db.ledger, limits, db.attempts[r].budget)
      && forall i :: 0 <= i < |db.ledger| && RequestRow(db.ledger[i], r) ==> amount <= db.ledger[i].amount)
  }

  ghost predicate HandedIsCharged(ledger: seq<Charge>, clearance: Clearance) {
    clearance.handed.Some? ==>
      exists i :: 0 <= i < |ledger| && RequestRow(ledger[i], clearance.request)
                  && ledger[i].budget == clearance.budget && clearance.handed.value <= ledger[i].amount
  }

  predicate HoldsLock(agent: Agent, r: RequestId) {
    agent.alive && agent.doing.Reserving? && agent.doing.request == r
  }

  ghost predicate LocksExclude(agents: seq<Agent>) {
    forall i, j :: 0 <= i < j < |agents| && agents[i].alive && agents[i].doing.Reserving? ==>
      !HoldsLock(agents[j], agents[i].doing.request)
  }

  ghost predicate AgentReserved(db: Db, limits: Limits, agent: Agent) {
    agent.alive && agent.doing.Reserving? ==> Reserved(db, limits, agent.doing.request, agent.doing.amount)
  }

  ghost predicate CeilingInv(s: State) {
    && LocksExclude(s.agents)
    && (forall i :: 0 <= i < |s.db.ledger| ==> BrowserRowCovers(s.db, s.limits, s.db.ledger[i]))
    && (forall i :: 0 <= i < |s.agents| ==> AgentReserved(s.db, s.limits, s.agents[i]))
    && (forall k :: 0 <= k < |s.past.cleared| ==> HandedIsCharged(s.db.ledger, s.past.cleared[k]))
  }

  lemma {:induction false} TotalGrows(ledger: seq<Charge>, longer: seq<Charge>, budget: BudgetId, resource: Resource)
    requires ledger <= longer
    ensures Total(ledger, budget, resource) <= Total(longer, budget, resource)
    decreases |longer|
  {
    if |ledger| < |longer| {
      TotalGrows(ledger, longer[..|longer| - 1], budget, resource);
    } else {
      assert ledger == longer;
    }
  }

  /** Capability and budget of an attempt never change. */
  ghost predicate SameKinds(db: Db, db': Db) {
    forall r :: r in db.attempts ==>
      r in db'.attempts && db'.attempts[r].capability == db.attempts[r].capability
      && db'.attempts[r].budget == db.attempts[r].budget
  }

  // ------------------------------------------------------------------ steps that hold or take no lock

  ghost predicate LocksOnlyDrop(agents: seq<Agent>, agents': seq<Agent>) {
    && |agents| <= |agents'|
    && (forall i :: 0 <= i < |agents| && agents'[i].alive && agents'[i].doing.Reserving? ==>
          agents[i].alive && agents'[i].doing == agents[i].doing)
    && (forall i :: |agents| <= i < |agents'| ==> agents'[i].doing.Idle?)
  }

  lemma OtherStepsDropLock(s: State, step: Step, s': State, j: nat)
    requires s' == Apply(s, step) && !step.Reserve? && j < |s.agents| <= |s'.agents|
    ensures s'.agents[j].alive && s'.agents[j].doing.Reserving? ==>
              s.agents[j].alive && s'.agents[j].doing == s.agents[j].doing
  {
  }

  lemma NewProcessesAreIdle(s: State, step: Step, s': State)
    requires s' == Apply(s, step)
    ensures |s.agents| <= |s'.agents|
    ensures forall i :: |s.agents| <= i < |s'.agents| ==> s'.agents[i].doing.Idle?
  {
  }

  lemma OtherStepsDropLocks(s: State, step: Step, s': State)
    requires s' == Apply(s, step) && !step.Reserve?
    ensures LocksOnlyDrop(s.agents, s'.agents)
  {
    NewProcessesAreIdle(s, step, s');
    forall j | 0 <= j < |s.agents| && s'.agents[j].alive && s'.agents[j].doing.Reserving?
      ensures s.agents[j].alive && s'.agents[j].doing == s.agents[j].doing
    {
      OtherStepsDropLock(s, step, s', j);
    }
  }

  lemma OutcomesKeepKinds(db: Db, r: RequestId, invocation: Invocation, document: WorkerDocument)
    requires r in db.attempts
    ensures SameKinds(db, RecordOutcome(db, r, invocation)) && RecordOutcome(db, r, invocation).ledger == db.ledger
    ensures SameKinds(db, MarkUnknown(db, r)) && MarkUnknown(db, r).ledger == db.ledger
    ensures SameKinds(db, IngestOutcomeOf(db, r, document).db) && IngestOutcomeOf(db, r, document).db.ledger == db.ledger
  {
  }

  lemma AuthorizationKeepsKinds(db: Db, x: ExperimentId, r: RequestId, verdict: Verdict, plan: PlanBinding)
    requires x in db.experiments
    ensures SameKinds(db, AuthorizeWrite(db, x, r, verdict, plan).db)
    ensures AuthorizeWrite(db, x, r, verdict, plan).db.ledger == db.ledger
  {
  }

  lemma WritersKeepKinds(s: State, step: Step, s': State)
    requires s' == Apply(s, step) && WritesTables(step) && !step.CommitDispatch?
    ensures SameKinds(s.db, s'.db) && (s'.db.ledger == s.db.ledger || step.Consume?)
    ensures s'.past.cleared == s.past.cleared && s'.limits == s.limits
  {
    match step
    case CommitAuthorization(i, r, verdict, plan, hooked) =>
      if s'.db != s.db {
        AuthorizationKeepsKinds(s.db, s.agents[i].doing.experiment, r, verdict, plan);
      }
    case CommitOutcome(i, invocation) =>
      if s' != s {
        var r := s.past.cleared[s.agents[i].doing.ticket].request;
        OutcomesKeepKinds(s.db, r, invocation, WorkerDocument(Succeeded, [], false));
      }
    case CommitIngestion(i) =>
      if s' != s {
        var r := s.past.cleared[s.agents[i].doing.ticket].request;
        OutcomesKeepKinds(s.db, r, Invocation(StartFailed, None), s.agents[i].doing.document);
      }
    case _ =>
  }

  lemma OtherStepsKeepKinds(s: State, step: Step, s': State)
    requires s' == Apply(s, step) && !step.CommitDispatch?
    ensures SameKinds(s.db, s'.db) && LedgerExtends(s, s')
    ensures s'.past.cleared == s.past.cleared && s'.limits == s.limits
  {
    if WritesTables(step) {
      WritersKeepKinds(s, step, s');
    } else {
      OtherStepsLeaveTables(s, step, s');
    }
  }

  /** New ledger rows that pay for no browser dispatch. */
  ghost predicate LedgerExtends(s: State, s': State) {
    && s.db.ledger <= s'.db.ledger
    && (forall i :: |s.db.ledger| <= i < |s'.db.ledger| ==> !s'.db.ledger[i].resource.Request?)
  }

  lemma CoversLater(amount: nat, ledger: seq<Charge>, longer: seq<Charge>, limits: Limits, budget: BudgetId)
    requires ledger <= longer && Covers(amount, ledger, limits, budget)
    ensures Covers(amount, longer, limits, budget)
  {
    TotalGrows(ledger, longer, budget, Request);
  }

  lemma HandedStaysCharged(ledger: seq<Charge>, longer: seq<Charge>, clearance: Clearance)
    requires ledger <= longer && HandedIsCharged(ledger, clearance)
    ensures HandedIsCharged(longer, clearance)
  {
    if clearance.handed.Some? {
      var i :| 0 <= i < |ledger| && RequestRow(ledger[i], clearance.request)
               && ledger[i].budget == clearance.budget && clearance.handed.value <= ledger[i].amount;
      assert longer[i] == ledger[i];
    }
  }

  lemma RowStaysCovered(s: State, s': State, i: nat)
    requires TablesInv(s) && CeilingInv(s) && s'.limits == s.limits
    requires s.db.ledger <= s'.db.ledger && SameKinds(s.db, s'.db)
    requires i < |s.db.ledger|
    ensures BrowserRowCovers(s'.db, s'.limits, s'.db.ledger[i])
  {
    var charge := s.db.ledger[i];
    assert s'.db.ledger[i] == charge && BrowserRowCovers(s.db, s.limits, charge);
    if charge.resource.Request? {
      assert ChargesADispatch(s.db, charge);
      if s.db.attempts[charge.request.value].capability.BrowserPage? {
        CoversLater(charge.amount, s.db.ledger, s'.db.ledger, s.limits, charge.budget);
      }
    }
  }

  lemma ReservationStays(s: State, s': State, r: RequestId, amount: Positive)
    requires s'.limits == s.limits && s.db.ledger <= s'.db.ledger && SameKinds(s.db, s'.db)
    requires r in s.db.attempts && Reserved(s.db, s.limits, r, amount)
    requires forall i :: |s.db.ledger| <= i < |s'.db.ledger| ==> !RequestRow(s'.db.ledger[i], r)
    ensures Reserved(s'.db, s'.limits, r, amount)
  {
    if s.db.attempts[r].capability.BrowserPage? {
      CoversLater(amount, s.db.ledger, s'.db.ledger, s.limits, s.db.attempts[r].budget);
      forall i | 0 <= i < |s'.db.ledger| && RequestRow(s'.db.ledger[i], r) ensures amount <= s'.db.ledger[i].amount {
        assert i < |s.db.ledger| && s'.db.ledger[i] == s.db.ledger[i];
      }
    }
  }

  lemma LocksStayExclusive(agents: seq<Agent>, agents': seq<Agent>)
    requires LocksExclude(agents) && LocksOnlyDrop(agents, agents')
    ensures LocksExclude(agents')
  {
    forall i, j | 0 <= i < j < |agents'| && agents'[i].alive && agents'[i].doing.Reserving?
      ensures !HoldsLock(agents'[j], agents'[i].doing.request)
    {
      if j < |agents| {
        assert !HoldsLock(agents[j], agents[i].doing.request);
      }
    }
  }

  lemma OtherStepsKeepCeilings(s: State, step: Step, s': State)
    requires TablesInv(s) && CeilingInv(s) && s' == Apply(s, step) && !step.CommitDispatch? && !step.Reserve?
    ensures CeilingInv(s')
  {
    OtherStepsDropLocks(s, step, s');
    OtherStepsKeepKinds(s, step, s');
    LocksStayExclusive(s.agents, s'.agents);
    ExtensionKeepsCeilings(s, s');
  }

  lemma ExtensionKeepsCeilings(s: State, s': State)
    requires TablesInv(s) && CeilingInv(s) && LocksOnlyDrop(s.agents, s'.agents) && LocksExclude(s'.agents)
    requires SameKinds(s.db, s'.db) && LedgerExtends(s, s')
    requires s'.past.cleared == s.past.cleared && s'.limits == s.limits
    ensures CeilingInv(s')
  {
    forall i | 0 <= i < |s'.db.ledger| ensures BrowserRowCovers(s'.db, s'.limits, s'.db.ledger[i]) {
      if i < |s.db.ledger| {
        RowStaysCovered(s, s', i);
      }
    }
    forall i | 0 <= i < |s'.agents| ensures AgentReserved(s'.db, s'.limits, s'.agents[i]) {
      if i < |s.agents| && s'.agents[i].alive && s'.agents[i].doing.Reserving? {
        assert AgentReserved(s.db, s.limits, s.agents[i]);
        ReservationStays(s, s', s.agents[i].doing.request, s.agents[i].doing.amount);
      }
    }
    forall k | 0 <= k < |s'.past.cleared| ensures HandedIsCharged(s'.db.ledger, s'.past.cleared[k]) {
      HandedStaysCharged(s.db.ledger, s'.db.ledger, s.past.cleared[k]);
    }
  }

  // ------------------------------------------------------------------ taking the lock

  lemma AmountIsReserved(s: State, r: RequestId, amount: Positive)
    requires TablesInv(s) && CeilingInv(s) && r in s.db.attempts && s.db.attempts[r].budget in s.limits.issued
    requires RequestAmount(s.db.ledger, s.limits, s.db.attempts[r]) == Some(amount)
    ensures Reserved(s.db, s.limits, r, amount)
  {
    if s.db.attempts[r].capability.BrowserPage? {
      forall i | 0 <= i < |s.db.ledger| && RequestRow(s.db.ledger[i], r) ensures amount <= s.db.ledger[i].amount {
        assert ChargesADispatch(s.db, s.db.ledger[i]) && BrowserRowCovers(s.db, s.limits, s.db.ledger[i]);
      }
    }
  }

  lemma ReserveKeepsCeilings(s: State, i: nat, s': State)
    requires TablesInv(s) && CeilingInv(s) && s' == DoReserve(s, i)
    ensures CeilingInv(s')
  {
    if s' != s {
      var r := s.agents[i].doing.request;
      assert !Locked(s, r);
      if s'.agents[i].doing.Reserving? {
        AmountIsReserved(s, r, s'.agents[i].doing.amount);
      }
      assert forall j :: 0 <= j < |s.agents| ==> !HoldsLock(s.agents[j], r);
      forall j | 0 <= j < |s'.agents| ensures AgentReserved(s'.db, s'.limits, s'.agents[j]) {
        assert AgentReserved(s.db, s.limits, s.agents[j]);
      }
    }
  }

  // ------------------------------------------------------------------ the commit

  /** The request row the commit leaves behind for its request: the one that was there, or a new one of its amount. */
  lemma {:induction false} CommittedRow(s: State, i: nat, s': State, r: RequestId, amount: Positive)
    requires TablesInv(s) && s' == DoCommitDispatch(s, i) && s'.past.cleared != s.past.cleared
    requires s.agents[i].doing == Reserving(r, amount) && Reserved(s.db, s.limits, r, amount)
    ensures s.db.ledger <= s'.db.ledger && SameKinds(s.db, s'.db) && s'.limits == s.limits
    ensures forall k :: |s.db.ledger| <= k < |s'.db.ledger| && s'.db.ledger[k].resource.Request? ==>
              s'.db.ledger[k] == Charge(s.db.attempts[r].budget, Some(r), Request, amount)
    ensures forall k :: |s.db.ledger| <= k < |s'.db.ledger| ==> s'.db.ledger[k].request == Some(r)
    ensures HasKey(s'.db.ledger, s.db.attempts[r].budget, r, Request)
  {
    var attempt := s.db.attempts[r];
    DispatchKeepsKinds(s.db, s.limits, r, amount, s'.db);
    CommittedCharges(s.db.ledger, s.limits, attempt, r, amount, s'.db.ledger);
  }

  lemma DispatchKeepsKinds(db: Db, limits: Limits, r: RequestId, amount: Positive, db': Db)
    requires r in db.attempts && BeginDispatch(db, limits, r, amount) == Some(db')
    ensures SameKinds(db, db')
    ensures ChargeDispatch(db.ledger, limits, db.attempts[r], r, amount) == Some(db'.ledger)
  {
  }

  lemma CommittedCharges(
    ledger: seq<Charge>, limits: Limits, attempt: Attempt, r: RequestId, amount: Positive, after: seq<Charge>)
    requires ValidLedger(ledger, limits) && ChargeDispatch(ledger, limits, attempt, r, amount) == Some(after)
    ensures ledger <= after && HasKey(after, attempt.budget, r, Request)
    ensures forall k :: |ledger| <= k < |after| ==>
              after[k] == DispatchCharge(attempt, r, WorkerInvocation, 1) || after[k] == DispatchCharge(attempt, r, Request, amount)
  {
    var first := InsertWithinAllowance(ledger, limits, true, DispatchCharge(attempt, r, WorkerInvocation, 1)).ledger;
    ChargeDispatchRecordsBothKeys(ledger, limits, attempt, r, amount, first, after);
    AtMostBoth(ledger, first, after, DispatchCharge(attempt, r, WorkerInvocation, 1), DispatchCharge(attempt, r, Request, amount));
  }

  lemma AtMostBoth(ledger: seq<Charge>, first: seq<Charge>, after: seq<Charge>, one: Charge, two: Charge)
    requires first == ledger || first == ledger + [one]
    requires after == first || after == first + [two]
    ensures ledger <= after
    ensures forall k :: |ledger| <= k < |after| ==> after[k] == one || after[k] == two
  {
  }

  lemma CommitHandsOutCharged(s: State, i: nat, s': State, r: RequestId, amount: Positive)
    requires TablesInv(s) && s' == DoCommitDispatch(s, i) && s'.past.cleared != s.past.cleared
    requires s.agents[i].doing == Reserving(r, amount) && Reserved(s.db, s.limits, r, amount)
    ensures HandedIsCharged(s'.db.ledger, ClearanceOf(s, i, r, amount))
  {
    CommittedRow(s, i, s', r, amount);
    if s.db.attempts[r].capability.BrowserPage? {
      var k :| 0 <= k < |s'.db.ledger| && s'.db.ledger[k].budget == s.db.attempts[r].budget
               && s'.db.ledger[k].request == Some(r) && s'.db.ledger[k].resource == Request;
      assert RequestRow(s'.db.ledger[k], r);
      if k < |s.db.ledger| {
        assert s'.db.ledger[k] == s.db.ledger[k];
      }
    }
  }

  lemma CommitKeepsCeilings(s: State, i: nat, s': State)
    requires TablesInv(s) && CeilingInv(s) && s' == DoCommitDispatch(s, i)
    ensures CeilingInv(s')
  {
    OtherStepsDropLocks(s, CommitDispatch(i), s');
    LocksStayExclusive(s.agents, s'.agents);
    if s'.past.cleared == s.past.cleared {
      assert SameKinds(s.db, s'.db) && LedgerExtends(s, s');
      ExtensionKeepsCeilings(s, s');
    } else {
      var r, amount := s.agents[i].doing.request, s.agents[i].doing.amount;
      assert AgentReserved(s.db, s.limits, s.agents[i]);
      CommittedRow(s, i, s', r, amount);
      CommitHandsOutCharged(s, i, s', r, amount);
      CommitKeepsRows(s, s', r, amount);
      CommitKeepsReservations(s, i, s', r);
      forall k | 0 <= k < |s'.past.cleared| ensures HandedIsCharged(s'.db.ledger, s'.past.cleared[k]) {
        if k < |s.past.cleared| {
          HandedStaysCharged(s.db.ledger, s'.db.ledger, s.past.cleared[k]);
        }
      }
    }
  }

  lemma CommitKeepsRows(s: State, s': State, r: RequestId, amount: Positive)
    requires TablesInv(s) && CeilingInv(s) && Reserved(s.db, s.limits, r, amount)
    requires s.db.ledger <= s'.db.ledger && SameKinds(s.db, s'.db) && s'.limits == s.limits
    requires forall k :: |s.db.ledger| <= k < |s'.db.ledger| && s'.db.ledger[k].resource.Request? ==>
               s'.db.ledger[k] == Charge(s.db.attempts[r].budget, Some(r), Request, amount)
    ensures forall k :: 0 <= k < |s'.db.ledger| ==> BrowserRowCovers(s'.db, s'.limits, s'.db.ledger[k])
  {
    forall k | 0 <= k < |s'.db.ledger| ensures BrowserRowCovers(s'.db, s'.limits, s'.db.ledger[k]) {
      if k < |s.db.ledger| {
        RowStaysCovered(s, s', k);
      } else if s.db.attempts[r].capability.BrowserPage? {
        CoversLater(amount, s.db.ledger, s'.db.ledger, s.limits, s.db.attempts[r].budget);
      }
    }
  }

  lemma CommitKeepsReservations(s: State, i: nat, s': State, r: RequestId)
    requires CeilingInv(s) && s'.limits == s.limits && s.db.ledger <= s'.db.ledger && SameKinds(s.db, s'.db)
    requires i < |s.agents| && HoldsLock(s.agents[i], r)
    requires |s'.agents| == |s.agents|
    requires forall j :: 0 <= j < |s.agents| && j != i ==> s'.agents[j] == s.agents[j]
    requires !s'.agents[i].doing.Reserving?
    requires forall k :: |s.db.ledger| <= k < |s'.db.ledger| ==> s'.db.ledger[k].request == Some(r)
    ensures forall j :: 0 <= j < |s'.agents| ==> AgentReserved(s'.db, s'.limits, s'.agents[j])
  {
    forall j | 0 <= j < |s'.agents| ensures AgentReserved(s'.db, s'.limits, s'.agents[j]) {
      if j != i && s.agents[j].alive && s.agents[j].doing.Reserving? {
        assert AgentReserved(s.db, s.limits, s.agents[j]);
        assert s.agents[j].doing.request != r;
        ReservationStays(s, s', s.agents[j].doing.request, s.agents[j].doing.amount);
      }
    }
  }

  lemma StepKeepsCeilings(s: State, step: Step, s': State)
    requires TablesInv(s) && CeilingInv(s) && s' == Apply(s, step)
    ensures CeilingInv(s')
  {
    match step
    case Reserve(i) => ReserveKeepsCeilings(s, i, s');
    case CommitDispatch(i) => CommitKeepsCeilings(s, i, s');
    case _ => OtherStepsKeepCeilings(s, step, s');
  }

  /** In every run, each ceiling a dispatch hands out is covered by the REQUEST row of its request. */
  lemma {:induction false} HandedCeilingsAreCharged(limits: Limits, steps: seq<Step>)
    ensures CeilingInv(Run(Initial(limits), steps))
  {
    if steps != [] {
      var front := steps[..|steps| - 1];
      HandedCeilingsAreCharged(limits, front);
      RunKeepsTables(limits, front);
      StepKeepsCeilings(Run(Initial(limits), front), steps[|steps| - 1], Run(Initial(limits), steps));
    }
  }

  // ------------------------------------------------------------------ sums over what passed to the Worker

  /** Ceilings handed to Workers of one budget, over the tickets that passed the lease check. */
  function HandedTotal(cleared: seq<Clearance>, passed: seq<nat>, budget: BudgetId): nat {
    if passed == [] then 0
    else
      var last := passed[|passed| - 1];
      HandedTotal(cleared, passed[..|passed| - 1], budget)
      + (if last < |cleared| && cleared[last].budget == budget && cleared[last].handed.Some?
         then cleared[last].handed.value else 0)
  }

  /** The part of a budget's REQUEST total that belongs to some requests. */
  function PaidFor(ledger: seq<Charge>, budget: BudgetId, requests: set<RequestId>): nat {
    if ledger == [] then 0
    else
      var last := ledger[|ledger| - 1];
      PaidFor(ledger[..|ledger| - 1], budget, requests)
      + (if last.budget == budget && last.resource.Request? && last.request.Some? && last.request.value in requests
         then last.amount else 0)
  }

  lemma {:induction false} PaidForIsPartOfTotal(ledger: seq<Charge>, budget: BudgetId, requests: set<RequestId>)
    ensures PaidFor(ledger, budget, requests) <= Total(ledger, budget, Request)
  {
    if ledger != [] {
      PaidForIsPartOfTotal(ledger[..|ledger| - 1], budget, requests);
    }
  }

  lemma {:induction false} PaidForGrows(ledger: seq<Charge>, budget: BudgetId, requests: set<RequestId>, r: RequestId)
    ensures PaidFor(ledger, budget, requests) <= PaidFor(ledger, budget, requests + {r})
  {
    if ledger != [] {
      PaidForGrows(ledger[..|ledger| - 1], budget, requests, r);
    }
  }

  lemma {:induction false} PaidForOneMore(
    ledger: seq<Charge>, budget: BudgetId, requests: set<RequestId>, r: RequestId, i: nat)
    requires i < |ledger| && RequestRow(ledger[i], r) && ledger[i].budget == budget && r !in requests
    ensures PaidFor(ledger, budget, requests) + ledger[i].amount <= PaidFor(ledger, budget, requests + {r})
  {
    var front := ledger[..|ledger| - 1];
    if i == |front| {
      PaidForGrows(front, budget, requests, r);
    } else {
      PaidForOneMore(front, budget, requests, r, i);
    }
  }

  function RequestsOf(cleared: seq<Clearance>, passed: seq<nat>): (requests: set<RequestId>)
    ensures forall r :: r in requests <==> exists a :: 0 <= a < |passed| && passed[a] < |cleared| && cleared[passed[a]].request == r
  {
    if passed == [] then {}
    else
      var last := passed[|passed| - 1];
      RequestsOf(cleared, passed[..|passed| - 1]) + if last < |cleared| then {cleared[last].request} else {}
  }

  lemma {:induction false} HandedIsPaidFor(ledger: seq<Charge>, cleared: seq<Clearance>, passed: seq<nat>, budget: BudgetId)
    requires forall k :: 0 <= k < |cleared| ==> HandedIsCharged(ledger, cleared[k])
    requires forall a, b :: 0 <= a < b < |passed| ==> !SameRequest(cleared, passed[a], passed[b])
    ensures HandedTotal(cleared, passed, budget) <= PaidFor(ledger, budget, RequestsOf(cleared, passed))
  {
    if passed != [] {
      var front, last := passed[..|passed| - 1], passed[|passed| - 1];
      HandedIsPaidFor(ledger, cleared, front, budget);
      if last < |cleared| {
        var r := cleared[last].request;
        assert r !in RequestsOf(cleared, front);
        PaidForGrows(ledger, budget, RequestsOf(cleared, front), r);
        if cleared[last].budget == budget && cleared[last].handed.Some? {
          assert HandedIsCharged(ledger, cleared[last]);
          var i :| 0 <= i < |ledger| && RequestRow(ledger[i], r)
                   && ledger[i].budget == budget && cleared[last].handed.value <= ledger[i].amount;
          PaidForOneMore(ledger, budget, RequestsOf(cleared, front), r, i);
        }
      } else {
        assert RequestsOf(cleared, passed) == RequestsOf(cleared, front);
      }
    }
  }

  /**
    In every run in which each request passes the lease check at most once, the request ceilings handed to all browser
    Workers of a budget add up to at most the budget's REQUEST charges, hence to at most its max_requests.
   */
  lemma {:induction false} HandedCeilingsFitTheBudget(limits: Limits, steps: seq<Step>, budget: BudgetId)
    requires PassedOnce(Run(Initial(limits), steps).past)
    ensures
      var s := Run(Initial(limits), steps);
      && HandedTotal(s.past.cleared, s.past.passed, budget) <= Total(s.db.ledger, budget, Request)
      && (budget in s.limits.issued ==>
            HandedTotal(s.past.cleared, s.past.passed, budget) <= s.limits.issued[budget].maxRequests)
  {
    var s := Run(Initial(limits), steps);
    HandedCeilingsAreCharged(limits, steps);
    RunKeepsTables(limits, steps);
    HandedIsPaidFor(s.db.ledger, s.past.cleared, s.past.passed, budget);
    PaidForIsPartOfTotal(s.db.ledger, budget, RequestsOf(s.past.cleared, s.past.passed));
  }

  /** Two conditions that ensure it: no stale dispatch, fenced or not; or leased processes without stale writes. */
  lemma {:induction false} RequestsPassOnce(limits: Limits, steps: seq<Step>)
    requires NoStaleDispatch(Run(Initial(limits), steps).past)
             || (OnlyLeased(steps) && NoStaleWrite(Initial(limits), steps))
    ensures PassedOnce(Run(Initial(limits), steps).past)
  {
    var past := Run(Initial(limits), steps).past;
    if NoStaleDispatch(past) {
      ClearedOnceExactlyWhenNoneStale(limits, steps);
      RunKeepsTickets(limits, steps);
      forall a, b | 0 <= a < b < |past.passed| ensures !SameRequest(past.cleared, past.passed[a], past.passed[b]) {
        assert past.passed[a] != past.passed[b];
      }
    } else {
      LeasedProcessesInvokeAtMostOnce(limits, steps);
    }
  }

  /** The condition is needed: two stale dispatchers of one browser attempt are handed 32 requests against a charge of 16. */
  lemma StaleDispatchersAreHandedTooMuch()
    ensures Reachable(TWO_CALLS, TWO_CALLED)
    ensures HandedTotal(TWO_CALLED.past.cleared, TWO_CALLED.past.passed, 1) == 32
    ensures Total(TWO_CALLED.db.ledger, 1, Request) == 16
  {
    StaleDispatchCallsTheWorkerTwice();
    var cleared := TWO_CALLED.past.cleared;
    assert [0, 1][..1] == [0] && [0][..0] == [];
    assert HandedTotal(cleared, [0], 1) == HandedTotal(cleared, [], 1) + 16;
    assert HandedTotal(cleared, [0, 1], 1) == HandedTotal(cleared, [0], 1) + 16;
    assert BOTH_CHARGES[..1] == [Charge(1, Some(9), WorkerInvocation, 1)];
    assert Total(BOTH_CHARGES[..1], 1, Request) == 0;
  }
}
