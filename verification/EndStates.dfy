/** Terminal rows are final, and attempts committed with the orchestration save only ever found a live, current row. */
module EndStates {
  import opened Wrappers
  import opened Ledger
  import opened Store
  import opened Execution
  import opened Runs
  import opened Protocol
  import opened Fencing
  import opened FencedCalls
  import O = Orchestration

  // ------------------------------------------------------------------ terminal rows

  predicate Ended(row: Option<Row>) {
    row.Some? && O.Terminal(row.value.state)
  }

  /** A release may still clear the owner of a terminal row; nothing else about it ever changes. */
  predicate SameButReleased(row: Row, row': Row) {
    row' == row || row' == row.(owner := None, expiresAt := None)
  }

  ghost predicate NoNewHooked(created: seq<Creation>, created': seq<Creation>) {
    created <= created' && forall k :: |created| <= k < |created'| ==> !created'[k].hooked
  }

  lemma StepKeepsEndState(s: State, step: Step, s': State)
    requires Ended(s.row) && s' == Apply(s, step)
    ensures Ended(s'.row) && SameButReleased(s.row.value, s'.row.value)
    ensures s'.cycles == s.cycles && NoNewHooked(s.past.created, s'.past.created)
  {
    if step.CommitAuthorization? {
      HookNeedsLiveRow(s, step.i, step.request, step.verdict, step.plan, step.hooked, s');
    } else {
      OthersKeepEndState(s, step, s');
    }
  }

  lemma OthersKeepEndState(s: State, step: Step, s': State)
    requires Ended(s.row) && s' == Apply(s, step) && !step.CommitAuthorization?
    ensures Ended(s'.row) && SameButReleased(s.row.value, s'.row.value)
    ensures s'.cycles == s.cycles && s'.past.created == s.past.created
  {
  }

  /** The attempt and its creation record are only kept when the save found a live row held by the creator's lease. */
  lemma HookNeedsLiveRow(
    s: State, i: nat, r: RequestId, verdict: Verdict, plan: PlanBinding, hooked: bool, s': State)
    requires s' == DoCommitAuthorization(s, i, r, verdict, plan, hooked)
    ensures s'.past.created == s.past.created
            || (Acts(s, i) && s.agents[i].doing.Authorizing? && r !in s.db.attempts && r in s'.db.attempts
                && s'.past.created
                   == s.past.created + [Creation(r, s.agents[i].doing.experiment, s.agents[i].lease, hooked, s.row)]
                && (hooked ==> LiveFor(s.row, s.agents[i].lease)))
    ensures s'.past.created == s.past.created ==> s'.row == s.row
    ensures !hooked ==> s'.row == s.row
    ensures s'.cycles == s.cycles
  {
  }

  predicate LiveFor(row: Option<Row>, lease: Option<Lease>) {
    row.Some? && !O.Terminal(row.value.state) && LeaseHeld(row, lease)
  }

  /** From a terminal row on, in every continuation: same row up to a release, same cycles, no attempt by a hooked step. */
  lemma {:induction false} EndStatesAreFinal(s: State, steps: seq<Step>)
    requires Ended(s.row)
    ensures Ended(Run(s, steps).row) && SameButReleased(s.row.value, Run(s, steps).row.value)
    ensures Run(s, steps).cycles == s.cycles
    ensures NoNewHooked(s.past.created, Run(s, steps).past.created)
  {
    if steps != [] {
      var front := steps[..|steps| - 1];
      EndStatesAreFinal(s, front);
      StepKeepsEndState(Run(s, front), steps[|steps| - 1], Run(s, steps));
    }
  }

  // ------------------------------------------------------------------ superseded leases

  lemma LeaseNeverChanges(s: State, step: Step, s': State, j: nat)
    requires s' == Apply(s, step) && j < |s.agents|
    ensures j < |s'.agents| && s'.agents[j].lease == s.agents[j].lease
  {
    if WritesRecord(step) {
      WritersKeepLease(s, step, s', j);
    } else {
      OthersKeepLease(s, step, s', j);
    }
  }

  lemma WritersKeepLease(s: State, step: Step, s': State, j: nat)
    requires WritesRecord(step) && s' == Apply(s, step) && j < |s.agents|
    ensures j < |s'.agents| && s'.agents[j].lease == s.agents[j].lease
  {
  }

  lemma OthersKeepLease(s: State, step: Step, s': State, j: nat)
    requires !WritesRecord(step) && s' == Apply(s, step) && j < |s.agents|
    ensures j < |s'.agents| && s'.agents[j].lease == s.agents[j].lease
  {
  }

  /** Hooked attempts added since carry no lease older than `epoch`. */
  ghost predicate HookedSince(created: seq<Creation>, created': seq<Creation>, epoch: nat) {
    && created <= created'
    && forall k :: |created| <= k < |created'| && created'[k].hooked && created'[k].lease.Some? ==>
      epoch <= created'[k].lease.value.epoch
  }

  lemma StepHooksCurrentEpoch(s: State, step: Step, s': State)
    requires s' == Apply(s, step)
    ensures HookedSince(s.past.created, s'.past.created, Epoch(s.row))
  {
    if step.CommitAuthorization? {
      HookNeedsLiveRow(s, step.i, step.request, step.verdict, step.plan, step.hooked, s');
    } else if WritesTables(step) {
      OtherWritersCreateNothing(s, step, s');
    } else {
      OtherStepsLeaveTables(s, step, s');
    }
  }

  lemma OtherWritersCreateNothing(s: State, step: Step, s': State)
    requires s' == Apply(s, step) && WritesTables(step) && !step.CommitAuthorization?
    ensures s'.past.created == s.past.created
  {
  }

  /** Once the row's epoch is `e`, no continuation commits a hooked attempt for a process with a smaller epoch. */
  lemma {:induction false} SupersededLeasesAuthorizeNothing(s: State, steps: seq<Step>)
    requires EpochInv(s) && NoStaleWrite(s, steps)
    ensures HookedSince(s.past.created, Run(s, steps).past.created, Epoch(s.row))
  {
    if steps != [] {
      var front := steps[..|steps| - 1];
      FrontNotStale(s, steps);
      OldLeasesStayFenced(s, front);
      SupersededLeasesAuthorizeNothing(s, front);
      StepHooksCurrentEpoch(Run(s, front), steps[|steps| - 1], Run(s, steps));
    }
  }

  // ------------------------------------------------------------------ attempts and their creations

  predicate CreatedLive(creation: Creation) {
    creation.hooked ==> LiveFor(creation.rowBefore, creation.lease)
  }

  ghost predicate HasCreation(created: seq<Creation>, r: RequestId, x: ExperimentId) {
    exists k :: 0 <= k < |created| && created[k].request == r && created[k].experiment == x
  }

  ghost predicate CreationsInv(s: State) {
    && (forall k :: 0 <= k < |s.past.created| ==> CreatedLive(s.past.created[k]))
    && (forall r :: r in s.db.attempts ==> HasCreation(s.past.created, r, s.db.attempts[r].experiment))
    && (forall k :: 0 <= k < |s.past.created| ==> CreatedStays(s.db, s.past.created[k]))
  }

  predicate CreatedStays(db: Db, creation: Creation) {
    creation.request in db.attempts && db.attempts[creation.request].experiment == creation.experiment
  }

  lemma AuthorizationKeepsCreations(
    s: State, i: nat, r: RequestId, verdict: Verdict, plan: PlanBinding, hooked: bool, s': State)
    requires CreationsInv(s) && s' == DoCommitAuthorization(s, i, r, verdict, plan, hooked)
    ensures CreationsInv(s')
  {
    var created, created' := s.past.created, s'.past.created;
    HookNeedsLiveRow(s, i, r, verdict, plan, hooked, s');
    AuthorizationCreates(s, i, r, verdict, plan, hooked, s');
    forall k | 0 <= k < |created'| ensures CreatedLive(created'[k]) && CreatedStays(s'.db, created'[k]) {
      if k < |created| {
        assert created'[k] == created[k] && CreatedLive(created[k]) && CreatedStays(s.db, created[k]);
      }
    }
    forall q | q in s'.db.attempts ensures HasCreation(created', q, s'.db.attempts[q].experiment) {
      if q in s.db.attempts {
        CreationPersists(created, created', q, s.db.attempts[q].experiment);
      } else {
        assert created'[|created|].request == q;
      }
    }
  }

  lemma CreationPersists(created: seq<Creation>, longer: seq<Creation>, r: RequestId, x: ExperimentId)
    requires created <= longer && HasCreation(created, r, x)
    ensures HasCreation(longer, r, x)
  {
    var k :| 0 <= k < |created| && created[k].request == r && created[k].experiment == x;
    assert longer[k] == created[k];
  }

  lemma AuthorizationCreates(
    s: State, i: nat, r: RequestId, verdict: Verdict, plan: PlanBinding, hooked: bool, s': State)
    requires s' == DoCommitAuthorization(s, i, r, verdict, plan, hooked)
    ensures s'.past.created == s.past.created ==> s'.db.attempts == s.db.attempts
    ensures s'.past.created != s.past.created ==>
              && Acts(s, i) && s.agents[i].doing.Authorizing? && r in s'.db.attempts
              && s'.db.attempts == s.db.attempts[r := s'.db.attempts[r]]
              && s'.db.attempts[r].experiment == s.agents[i].doing.experiment
  {
  }

  ghost predicate SameExperiments(db: Db, db': Db) {
    && (forall r :: r in db'.attempts <==> r in db.attempts)
    && (forall r :: r in db.attempts ==> db'.attempts[r].experiment == db.attempts[r].experiment)
  }

  lemma OutcomesKeepExperiments(db: Db, r: RequestId, invocation: Invocation, document: WorkerDocument)
    requires r in db.attempts
    ensures SameExperiments(db, RecordOutcome(db, r, invocation))
    ensures SameExperiments(db, MarkUnknown(db, r))
    ensures SameExperiments(db, IngestOutcomeOf(db, r, document).db)
  {
  }

  lemma WritersKeepExperiments(s: State, step: Step, s': State)
    requires WritesTables(step) && !step.CommitAuthorization? && s' == Apply(s, step)
    ensures s'.past.created == s.past.created && SameExperiments(s.db, s'.db)
  {
    match step
    case CommitOutcome(i, invocation) =>
      if s' != s {
        var r := s.past.cleared[s.agents[i].doing.ticket].request;
        OutcomesKeepExperiments(s.db, r, invocation, WorkerDocument(Succeeded, [], false));
      }
    case CommitIngestion(i) =>
      if s' != s {
        var r := s.past.cleared[s.agents[i].doing.ticket].request;
        OutcomesKeepExperiments(s.db, r, Invocation(StartFailed, None), s.agents[i].doing.document);
      }
    case _ =>
  }

  lemma OtherStepsCreateNothing(s: State, step: Step, s': State)
    requires !step.CommitAuthorization? && s' == Apply(s, step)
    ensures s'.past.created == s.past.created && SameExperiments(s.db, s'.db)
  {
    if WritesTables(step) {
      WritersKeepExperiments(s, step, s');
    } else {
      OtherStepsLeaveTables(s, step, s');
    }
  }

  lemma StepKeepsCreations(s: State, step: Step, s': State)
    requires CreationsInv(s) && s' == Apply(s, step)
    ensures CreationsInv(s')
  {
    if step.CommitAuthorization? {
      AuthorizationKeepsCreations(s, step.i, step.request, step.verdict, step.plan, step.hooked, s');
    } else {
      OtherStepsCreateNothing(s, step, s');
      forall k | 0 <= k < |s'.past.created| ensures CreatedStays(s'.db, s'.past.created[k]) {
        assert CreatedStays(s.db, s.past.created[k]);
      }
    }
  }

  /** In every run, each attempt has its creation, and a hooked one found a live row held by its creator's lease. */
  lemma {:induction false} AttemptsWereCreatedLive(limits: Limits, steps: seq<Step>)
    ensures CreationsInv(Run(Initial(limits), steps))
  {
    if steps != [] {
      var front := steps[..|steps| - 1];
      AttemptsWereCreatedLive(limits, front);
      StepKeepsCreations(Run(Initial(limits), front), steps[|steps| - 1], Run(Initial(limits), steps));
    }
  }

  // ------------------------------------------------------------------ one attempt per experiment

  predicate AllHooked(steps: seq<Step>) {
    forall n :: 0 <= n < |steps| && steps[n].CommitAuthorization? ==> steps[n].hooked
  }

  predicate CreatedUnder(creation: Creation, epoch: nat) {
    creation.lease.Some? && creation.lease.value.epoch <= epoch
  }

  /** A process about to authorize an experiment that already got its attempt has an older lease. */
  predicate AuthorizerOutdated(creation: Creation, agent: Agent) {
    agent.lease.Some? && creation.lease.Some? && agent.doing == Authorizing(creation.experiment) ==>
      agent.lease.value.epoch < creation.lease.value.epoch
  }

  ghost predicate SingleInv(s: State) {
    && AllLeased(s.agents)
    && (forall k :: 0 <= k < |s.past.created| ==> CreatedUnder(s.past.created[k], Epoch(s.row)))
    && (forall k, i :: 0 <= k < |s.past.created| && 0 <= i < |s.agents| ==>
          AuthorizerOutdated(s.past.created[k], s.agents[i]))
    && (forall j, k :: 0 <= j < k < |s.past.created| ==> s.past.created[j].experiment != s.past.created[k].experiment)
  }

  lemma HookedKeepsSingle(s: State, i: nat, r: RequestId, verdict: Verdict, plan: PlanBinding, s': State)
    requires SingleInv(s) && EpochInv(s) && s' == DoCommitAuthorization(s, i, r, verdict, plan, true)
    requires Epoch(s'.row) == Epoch(s.row)
    ensures SingleInv(s')
  {
    HookNeedsLiveRow(s, i, r, verdict, plan, true, s');
    AuthorizersMove(s, CommitAuthorization(i, r, verdict, plan, true), s');
    if s'.past.created != s.past.created {
      var created, creation := s.past.created, s'.past.created[|s.past.created|];
      forall k | 0 <= k < |created| ensures created[k].experiment != creation.experiment {
        assert CreatedUnder(created[k], Epoch(s.row)) && AuthorizerOutdated(created[k], s.agents[i]);
      }
      forall k, j | 0 <= k < |s'.past.created| && 0 <= j < |s'.agents|
        ensures AuthorizerOutdated(s'.past.created[k], s'.agents[j])
      {
        if k < |created| {
          assert s'.past.created[k] == created[k] && AuthorizerOutdated(created[k], s.agents[j]);
        } else if j != i {
          assert AgentBounded(s.agents[j], Epoch(s.row));
        }
      }
    }
  }

  lemma AuthorizersMove(s: State, step: Step, s': State)
    requires s' == Apply(s, step) && step.CommitAuthorization?
    ensures |s'.agents| == |s.agents|
    ensures forall j :: 0 <= j < |s.agents| ==> s'.agents[j].lease == s.agents[j].lease
    ensures forall j :: 0 <= j < |s.agents| && s'.agents[j].doing.Authorizing? ==> s'.agents[j].doing == s.agents[j].doing
    ensures s'.past.created != s.past.created && step.i < |s.agents| ==> !s'.agents[step.i].doing.Authorizing?
  {
  }

  lemma ReadKeepsSingle(s: State, i: nat, x: ExperimentId, s': State)
    requires SingleInv(s) && CreationsInv(s) && s' == DoReadExperiment(s, i, x)
    ensures SingleInv(s')
  {
    if s' != s {
      forall k, j | 0 <= k < |s.past.created| && 0 <= j < |s.agents|
        ensures AuthorizerOutdated(s.past.created[k], s'.agents[j])
      {
        assert CreatedStays(s.db, s.past.created[k]) && AuthorizerOutdated(s.past.created[k], s.agents[j]);
      }
    }
  }

  lemma OthersMoveNoAuthorizer(s: State, step: Step, s': State)
    requires s' == Apply(s, step)
    requires !step.CommitAuthorization? && !step.ReadExperiment? && !step.Spawn?
    ensures |s.agents| <= |s'.agents|
    ensures forall j :: 0 <= j < |s.agents| ==> s'.agents[j].lease == s.agents[j].lease
    ensures forall j :: 0 <= j < |s.agents| && s'.agents[j].doing.Authorizing? ==> s'.agents[j].doing == s.agents[j].doing
    ensures forall j :: |s.agents| <= j < |s'.agents| ==> s'.agents[j].lease.Some? && s'.agents[j].doing.Idle?
  {
    NewProcessesHoldLeases(s, step, s');
    forall j | 0 <= j < |s.agents|
      ensures s'.agents[j].lease == s.agents[j].lease
      ensures s'.agents[j].doing.Authorizing? ==> s'.agents[j].doing == s.agents[j].doing
    {
      OthersMoveNoAuthorizerAt(s, step, s', j);
    }
  }

  lemma NewProcessesHoldLeases(s: State, step: Step, s': State)
    requires s' == Apply(s, step) && !step.Spawn?
    ensures |s.agents| <= |s'.agents|
    ensures forall j :: |s.agents| <= j < |s'.agents| ==> s'.agents[j].lease.Some? && s'.agents[j].doing.Idle?
  {
  }

  lemma OthersMoveNoAuthorizerAt(s: State, step: Step, s': State, j: nat)
    requires s' == Apply(s, step) && j < |s.agents| <= |s'.agents|
    requires !step.CommitAuthorization? && !step.ReadExperiment?
    ensures s'.agents[j].lease == s.agents[j].lease
    ensures s'.agents[j].doing.Authorizing? ==> s'.agents[j].doing == s.agents[j].doing
  {
  }

  lemma OthersKeepSingle(s: State, step: Step, s': State)
    requires SingleInv(s) && s' == Apply(s, step) && Epoch(s.row) <= Epoch(s'.row)
    requires !step.CommitAuthorization? && !step.ReadExperiment? && !step.Spawn?
    ensures SingleInv(s')
  {
    OthersMoveNoAuthorizer(s, step, s');
    OtherStepsCreateNothing(s, step, s');
    forall j | 0 <= j < |s'.agents| ensures s'.agents[j].lease.Some? {
    }
    forall k | 0 <= k < |s'.past.created| ensures CreatedUnder(s'.past.created[k], Epoch(s'.row)) {
      assert CreatedUnder(s.past.created[k], Epoch(s.row));
    }
    forall k, j | 0 <= k < |s'.past.created| && 0 <= j < |s'.agents|
      ensures AuthorizerOutdated(s'.past.created[k], s'.agents[j])
    {
      if j < |s.agents| {
        assert AuthorizerOutdated(s.past.created[k], s.agents[j]);
      }
    }
  }

  lemma {:induction false} RunKeepsSingle(limits: Limits, steps: seq<Step>)
    requires OnlyLeased(steps) && AllHooked(steps) && NoStaleWrite(Initial(limits), steps)
    ensures SingleInv(Run(Initial(limits), steps))
  {
    if steps != [] {
      var front, step := steps[..|steps| - 1], steps[|steps| - 1];
      var s, s' := Run(Initial(limits), front), Run(Initial(limits), steps);
      FrontNotStale(Initial(limits), steps);
      RunKeepsSingle(limits, front);
      RunKeepsEpochs(limits, front);
      AttemptsWereCreatedLive(limits, front);
      StepKeepsSingle(s, step, s');
    }
  }

  lemma StepKeepsSingle(s: State, step: Step, s': State)
    requires SingleInv(s) && EpochInv(s) && CreationsInv(s)
    requires s' == Apply(s, step) && !StaleWrite(s, step) && !step.Spawn?
    requires step.CommitAuthorization? ==> step.hooked
    ensures SingleInv(s')
  {
    StepKeepsEpochs(s, step, s');
    match step
    case CommitAuthorization(i, r, verdict, plan, hooked) => HookedKeepsSingle(s, i, r, verdict, plan, s');
    case ReadExperiment(i, x) => ReadKeepsSingle(s, i, x, s');
    case _ => OthersKeepSingle(s, step, s');
  }

  /** Leased processes that authorize through the hook never commit two attempts of one experiment, stale reads included. */
  lemma {:induction false} OneAttemptPerExperiment(limits: Limits, steps: seq<Step>, r: RequestId, q: RequestId)
    requires OnlyLeased(steps) && AllHooked(steps) && NoStaleWrite(Initial(limits), steps)
    requires r in Run(Initial(limits), steps).db.attempts && q in Run(Initial(limits), steps).db.attempts
    requires r != q
    ensures
      var db := Run(Initial(limits), steps).db;
      db.attempts[r].experiment != db.attempts[q].experiment
  {
    RunKeepsSingle(limits, steps);
    AttemptsWereCreatedLive(limits, steps);
    var s := Run(Initial(limits), steps);
    var created := s.past.created;
    var j :| 0 <= j < |created| && created[j].request == r && created[j].experiment == s.db.attempts[r].experiment;
    var k :| 0 <= k < |created| && created[k].request == q && created[k].experiment == s.db.attempts[q].experiment;
    assert j < k || k < j;
  }
}
