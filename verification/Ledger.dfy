/** The append-only budget consumption ledger and the issued allowances it is checked against. */
module Ledger {
  import opened Wrappers

  type BudgetId = nat
  type RequestId = nat

  datatype Resource =
    | ModelCall
    | WorkerInvocation
    | Request
    | ExecutionTime
    | ArtifactBytes
    | ModelTokensIn
    | ModelTokensOut
    | EscalationDecision

  /** The table rejects any other amount. */
  type Positive = n: nat | 0 < n witness 1

  /** One ledger row. */
  datatype Charge = Charge(budget: BudgetId, request: Option<RequestId>, resource: Resource, amount: Positive)

  datatype IssuedBudget = IssuedBudget(maxRequests: nat, maxToolCalls: nat, maxRuntime: nat)

  /** Immutable limits of the run: its issued budgets and, once orchestration exists, its model-call bound. */
  datatype Limits = Limits(issued: map<BudgetId, IssuedBudget>, maxModelCalls: nat)

  // ------------------------------------------------------------------ totals

  function Total(ledger: seq<Charge>, budget: BudgetId, resource: Resource): nat {
    if ledger == [] then 0
    else
      var last := ledger[|ledger| - 1];
      Total(ledger[..|ledger| - 1], budget, resource)
      + (if last.budget == budget && last.resource == resource then last.amount else 0)
  }

  lemma TotalAppend(ledger: seq<Charge>, charge: Charge, budget: BudgetId, resource: Resource)
    ensures Total(ledger + [charge], budget, resource) ==
            Total(ledger, budget, resource)
            + (if charge.budget == budget && charge.resource == resource then charge.amount else 0)
  {
    assert (ledger + [charge])[..|ledger|] == ledger;
  }

  datatype LedgerTotals = LedgerTotals(
    modelCalls: nat,
    workerRequests: nat,
    workerInvocations: nat,
    executionTime: nat,
    artifactBytes: nat)

  /** The five counters of one pass over a budget's rows, proved equal to the per-resource sums. */
  method ComputeTotals(records: seq<Charge>, budget: BudgetId) returns (totals: LedgerTotals)
    requires forall i :: 0 <= i < |records| ==> records[i].budget == budget
    ensures totals == LedgerTotals(
                        Total(records, budget, ModelCall),
                        Total(records, budget, Request),
                        Total(records, budget, WorkerInvocation),
                        Total(records, budget, ExecutionTime),
                        Total(records, budget, ArtifactBytes))
  {
    var modelCalls, requests, invocations, time, bytes := 0, 0, 0, 0, 0;
    for i := 0 to |records|
      invariant modelCalls == Total(records[..i], budget, ModelCall)
      invariant requests == Total(records[..i], budget, Request)
      invariant invocations == Total(records[..i], budget, WorkerInvocation)
      invariant time == Total(records[..i], budget, ExecutionTime)
      invariant bytes == Total(records[..i], budget, ArtifactBytes)
    {
      assert records[..i + 1][..i] == records[..i];
      var record := records[i];
      if record.resource == ModelCall {
        modelCalls := modelCalls + record.amount;
      } else if record.resource == Request {
        requests := requests + record.amount;
      } else if record.resource == WorkerInvocation {
        invocations := invocations + record.amount;
      } else if record.resource == ExecutionTime {
        time := time + record.amount;
      } else if record.resource == ArtifactBytes {
        bytes := bytes + record.amount;
      }
    }
    assert records[..|records|] == records;
    totals := LedgerTotals(modelCalls, requests, invocations, time, bytes);
  }

  // ------------------------------------------------------------------ allowance

  /** Issued allowance of a resource; the ledger refuses resources without one. */
  function Allowance(limits: Limits, orchestrated: bool, budget: BudgetId, resource: Resource): Option<nat>
    requires budget in limits.issued
  {
    match resource
    case ModelCall => if orchestrated then Some(limits.maxModelCalls) else None
    case Request => Some(limits.issued[budget].maxRequests)
    case WorkerInvocation => Some(limits.issued[budget].maxToolCalls)
    case ExecutionTime => Some(limits.issued[budget].maxRuntime)
    case _ => None
  }

  /** Resources recorded without an allowance check. */
  predicate Untracked(resource: Resource) {
    resource.ModelTokensIn? || resource.ModelTokensOut? || resource.EscalationDecision?
  }

  predicate HasKey(ledger: seq<Charge>, budget: BudgetId, request: RequestId, resource: Resource) {
    exists i ::
      && 0 <= i < |ledger|
      && ledger[i].budget == budget && ledger[i].request == Some(request) && ledger[i].resource == resource
  }

  predicate Duplicate(ledger: seq<Charge>, charge: Charge) {
    charge.request.Some? && HasKey(ledger, charge.budget, charge.request.value, charge.resource)
  }

  datatype InsertOutcome = Recorded | AlreadyRecorded | Overspend | BudgetMissing

  datatype InsertResult = InsertResult(ledger: seq<Charge>, outcome: InsertOutcome)

  /** A duplicate is skipped without an error; the allowance is only checked for a new key. */
  function InsertWithinAllowance(ledger: seq<Charge>, limits: Limits, orchestrated: bool, charge: Charge): InsertResult
  {
    if charge.budget !in limits.issued then InsertResult(ledger, BudgetMissing)
    else if Duplicate(ledger, charge) then InsertResult(ledger, AlreadyRecorded)
    else
      var allowance := Allowance(limits, orchestrated, charge.budget, charge.resource);
      if allowance.None? || Total(ledger, charge.budget, charge.resource) + charge.amount > allowance.value
      then InsertResult(ledger, Overspend)
      else InsertResult(ledger + [charge], Recorded)
  }

  /** The general consumption command: token records skip the allowance, everything else is checked. */
  function RecordConsumption(ledger: seq<Charge>, limits: Limits, orchestrated: bool, charge: Charge): InsertResult
  {
    if charge.budget !in limits.issued then InsertResult(ledger, BudgetMissing)
    else if Duplicate(ledger, charge) then InsertResult(ledger, AlreadyRecorded)
    else if Untracked(charge.resource) then InsertResult(ledger + [charge], Recorded)
    else InsertWithinAllowance(ledger, limits, orchestrated, charge)
  }

  // ------------------------------------------------------------------ ledger invariants

  /** The unique constraint on (budget, request, resource). */
  ghost predicate UniqueKeys(ledger: seq<Charge>) {
    forall i, j ::
      0 <= i < j < |ledger| && ledger[i].request.Some? ==>
        !(ledger[i].budget == ledger[j].budget && ledger[i].request == ledger[j].request
          && ledger[i].resource == ledger[j].resource)
  }

  /** No total exceeds its issued allowance. */
  ghost predicate WithinAllowance(ledger: seq<Charge>, limits: Limits) {
    forall b :: b in limits.issued ==>
      && Total(ledger, b, Request) <= limits.issued[b].maxRequests
      && Total(ledger, b, WorkerInvocation) <= limits.issued[b].maxToolCalls
      && Total(ledger, b, ExecutionTime) <= limits.issued[b].maxRuntime
      && Total(ledger, b, ModelCall) <= limits.maxModelCalls
  }

  ghost predicate ValidLedger(ledger: seq<Charge>, limits: Limits) {
    UniqueKeys(ledger) && WithinAllowance(ledger, limits)
  }

  lemma NewKeyStaysUnique(ledger: seq<Charge>, charge: Charge)
    requires UniqueKeys(ledger) && !Duplicate(ledger, charge)
    ensures UniqueKeys(ledger + [charge])
  {
    var longer := ledger + [charge];
    forall i, j | 0 <= i < j < |longer| && longer[i].request.Some?
      ensures !(longer[i].budget == longer[j].budget && longer[i].request == longer[j].request
                && longer[i].resource == longer[j].resource)
    {
      assert longer[i] == ledger[i];
    }
  }

  lemma AllowedStaysWithin(ledger: seq<Charge>, limits: Limits, orchestrated: bool, charge: Charge)
    requires WithinAllowance(ledger, limits) && charge.budget in limits.issued
    requires
      var allowance := Allowance(limits, orchestrated, charge.budget, charge.resource);
      Untracked(charge.resource)
      || (allowance.Some? && Total(ledger, charge.budget, charge.resource) + charge.amount <= allowance.value)
    ensures WithinAllowance(ledger + [charge], limits)
  {
    forall b, resource
      ensures Total(ledger + [charge], b, resource)
           == Total(ledger, b, resource) + (if charge.budget == b && charge.resource == resource then charge.amount else 0)
    {
      TotalAppend(ledger, charge, b, resource);
    }
  }

  /** Whatever is recorded, keys stay unique, totals stay within the allowance, and earlier rows stay. */
  lemma RecordConsumptionKeepsLedgerValid(
    ledger: seq<Charge>, limits: Limits, orchestrated: bool, charge: Charge, result: InsertResult)
    requires ValidLedger(ledger, limits)
    requires result == RecordConsumption(ledger, limits, orchestrated, charge)
    ensures ValidLedger(result.ledger, limits)
    ensures result.ledger == if result.outcome.Recorded? then ledger + [charge] else ledger
    ensures charge.request.Some? && result.outcome in {Recorded, AlreadyRecorded} ==>
              HasKey(result.ledger, charge.budget, charge.request.value, charge.resource)
  {
    if result.outcome.Recorded? {
      NewKeyStaysUnique(ledger, charge);
      AllowedStaysWithin(ledger, limits, orchestrated, charge);
      assert result.ledger[|ledger|] == charge;
    }
  }

  /** The consumption table of the store, updated in place. */
  class BudgetLedger {
    var rows: seq<Charge>
    const limits: Limits

    constructor (limits: Limits)
      ensures rows == [] && this.limits == limits
    {
      this.rows := [];
      this.limits := limits;
    }

    method FindKey(budget: BudgetId, request: RequestId, resource: Resource) returns (found: bool)
      ensures found == HasKey(rows, budget, request, resource)
    {
      found := false;
      for i := 0 to |rows|
        invariant found == exists k ::
                    && 0 <= k < i
                    && rows[k].budget == budget && rows[k].request == Some(request) && rows[k].resource == resource
      {
        if rows[i].budget == budget && rows[i].request == Some(request) && rows[i].resource == resource {
          found := true;
        }
      }
    }

    method Insert(charge: Charge, orchestrated: bool) returns (outcome: InsertOutcome)
      modifies this
      ensures InsertResult(rows, outcome) == InsertWithinAllowance(old(rows), limits, orchestrated, charge)
    {
      if charge.budget !in limits.issued {
        return BudgetMissing;
      }
      if charge.request.Some? {
        var duplicate := FindKey(charge.budget, charge.request.value, charge.resource);
        if duplicate {
          return AlreadyRecorded;
        }
      }
      var allowance := Allowance(limits, orchestrated, charge.budget, charge.resource);
      if allowance.None? || Total(rows, charge.budget, charge.resource) + charge.amount > allowance.value {
        return Overspend;
      }
      rows := rows + [charge];
      return Recorded;
    }

    method Record(charge: Charge, orchestrated: bool) returns (outcome: InsertOutcome)
      modifies this
      ensures InsertResult(rows, outcome) == RecordConsumption(old(rows), limits, orchestrated, charge)
      ensures ValidLedger(old(rows), limits) ==> ValidLedger(rows, limits)
    {
      ghost var before := rows;
      if charge.budget !in limits.issued {
        return BudgetMissing;
      }
      if charge.request.Some? {
        var duplicate := FindKey(charge.budget, charge.request.value, charge.resource);
        if duplicate {
          return AlreadyRecorded;
        }
      }
      if Untracked(charge.resource) {
        rows := rows + [charge];
        outcome := Recorded;
      } else {
        outcome := Insert(charge, orchestrated);
      }
      if ValidLedger(before, limits) {
        RecordConsumptionKeepsLedgerValid(before, limits, orchestrated, charge, InsertResult(rows, outcome));
      }
    }
  }

  // ------------------------------------------------------------------ what recording answers

  /** The allowance of a counted resource; model calls have one only once the run is orchestrated. */
  predicate Allows(limits: Limits, orchestrated: bool, budget: BudgetId, resource: Resource, total: nat)
    requires budget in limits.issued
  {
    match resource
    case ModelCall => orchestrated && total <= limits.maxModelCalls
    case WorkerInvocation => total <= limits.issued[budget].maxToolCalls
    case Request => total <= limits.issued[budget].maxRequests
    case ExecutionTime => total <= limits.issued[budget].maxRuntime
    case ArtifactBytes => false
    case _ => true
  }

  /** A row of this budget, request and resource is there already; rows without a request never clash. */
  predicate Twice(ledger: seq<Charge>, charge: Charge) {
    exists i :: 0 <= i < |ledger| && ledger[i].request.Some? && ledger[i].(amount := charge.amount) == charge
  }

  lemma TwiceIsDuplicate(ledger: seq<Charge>, charge: Charge)
    ensures Twice(ledger, charge) <==> Duplicate(ledger, charge)
  {
  }

  /** Each answer stands for its own situation; tokens and decisions are never refused, artifact bytes always. */
  lemma RecordingAnswers(ledger: seq<Charge>, limits: Limits, orchestrated: bool, charge: Charge)
    ensures
      var result := RecordConsumption(ledger, limits, orchestrated, charge);
      var issued := charge.budget in limits.issued;
      var twice := Twice(ledger, charge);
      && (result.outcome.BudgetMissing? <==> !issued)
      && (result.outcome.AlreadyRecorded? <==> issued && twice)
      && (result.outcome.Overspend? <==>
            issued && !twice
            && !Allows(limits, orchestrated, charge.budget, charge.resource,
                       Total(ledger, charge.budget, charge.resource) + charge.amount))
      && result.ledger == ledger + (if result.outcome.Recorded? then [charge] else [])
  {
    TwiceIsDuplicate(ledger, charge);
  }
}
