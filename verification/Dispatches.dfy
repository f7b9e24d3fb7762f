/**
  What a Worker call costs in every run. A call spends one dispatch commit of its own; a request is called
  twice only when some dispatch committed over an attempt that had already left AUTHORIZED, which the
  statement itself does not prevent.
 */
module Dispatches {
  import opened Wrappers
  import opened Ledger
  import opened Store
  import opened Execution
  import opened Runs
  import opened Protocol
  import O = Orchestration

  ghost predicate FirstFor(cleared: seq<Clearance>, k: nat)
    requires k < |cleared|
  {
    forall j :: 0 <= j < k ==> cleared[j].request != cleared[k].request
  }

  /** A dispatch overwrote AUTHORIZED exactly when it is the first of its request. */
  ghost predicate StalenessInv(cleared: seq<Clearance>) {
    forall k :: 0 <= k < |cleared| ==> (cleared[k].wasAuthorized <==> FirstFor(cleared, k))
  }

  lemma DispatchKeepsStaleness(s: State, i: nat)
    requires TablesInv(s) && StalenessInv(s.past.cleared)
    ensures StalenessInv(DoCommitDispatch(s, i).past.cleared)
  {
    var cleared, cleared' := s.past.cleared, DoCommitDispatch(s, i).past.cleared;
    if cleared' != cleared {
      var r := s.agents[i].doing.request;
      assert cleared' == cleared + [cleared'[|cleared|]];
      if FirstFor(cleared', |cleared|) {
        assert !WasCleared(cleared, r) by {
          forall k | 0 <= k < |cleared| ensures cleared[k].request != r {
            assert cleared'[k] == cleared[k];
          }
        }
      }
      ExtendedStaleness(cleared, cleared'[|cleared|], Left(s.db, r));
    }
  }

  lemma ExtendedStaleness(cleared: seq<Clearance>, last: Clearance, left: bool)
    requires StalenessInv(cleared)
    requires last.wasAuthorized == !left
    requires left <==> WasCleared(cleared, last.request)
    ensures StalenessInv(cleared + [last])
  {
    var cleared' := cleared + [last];
    forall k | 0 <= k < |cleared'| ensures cleared'[k].wasAuthorized <==> FirstFor(cleared', k) {
      if k < |cleared| {
        assert cleared'[k] == cleared[k];
        assert FirstFor(cleared', k) <==> FirstFor(cleared, k) by {
          if FirstFor(cleared', k) {
            assert forall j :: 0 <= j < k ==> cleared'[j] == cleared[j];
          }
        }
      } else if left {
        var j :| 0 <= j < |cleared| && cleared[j].request == last.request;
        assert cleared'[j] == cleared[j];
      }
    }
  }

  lemma {:induction false} RunKeepsStaleness(limits: Limits, steps: seq<Step>)
    ensures StalenessInv(Run(Initial(limits), steps).past.cleared)
  {
    if steps != [] {
      var front, step := steps[..|steps| - 1], steps[|steps| - 1];
      var s := Run(Initial(limits), front);
      RunKeepsStaleness(limits, front);
      RunKeepsTables(limits, front);
      StepKeepsStaleness(s, step, Run(Initial(limits), steps));
    }
  }

  lemma StepKeepsStaleness(s: State, step: Step, s': State)
    requires TablesInv(s) && StalenessInv(s.past.cleared) && s' == Apply(s, step)
    ensures StalenessInv(s'.past.cleared)
  {
    if step.CommitDispatch? {
      DispatchKeepsStaleness(s, step.i);
    } else {
      OnlyDispatchesClear(s, step, s');
    }
  }

  lemma OnlyDispatchesClear(s: State, step: Step, s': State)
    requires !step.CommitDispatch? && s' == Apply(s, step)
    ensures s'.past.cleared == s.past.cleared
  {
  }

  // ------------------------------------------------------------------ at most once, exactly when

  ghost predicate NoStaleDispatch(past: History) {
    forall k :: 0 <= k < |past.cleared| ==> past.cleared[k].wasAuthorized
  }

  ghost predicate EachClearedOnce(past: History) {
    forall j, k :: 0 <= j < k < |past.cleared| ==> past.cleared[j].request != past.cleared[k].request
  }

  /** No request reached the Worker twice. */
  ghost predicate EachInvokedOnce(past: History) {
    forall a, b :: 0 <= a < b < |past.invoked| && past.invoked[a] < |past.cleared| && past.invoked[b] < |past.cleared| ==>
      past.cleared[past.invoked[a]].request != past.cleared[past.invoked[b]].request
  }

  /** Every call at the Worker spends a dispatch commit of its own: distinct calls, distinct commits. */
  lemma {:induction false} EveryInvocationSpendsItsOwnDispatch(limits: Limits, steps: seq<Step>, a: nat, b: nat)
    requires a < b < |Run(Initial(limits), steps).past.invoked|
    ensures
      var past := Run(Initial(limits), steps).past;
      && past.invoked[a] != past.invoked[b]
      && past.invoked[a] < |past.cleared| && past.invoked[b] < |past.cleared|
  {
    RunKeepsTickets(limits, steps);
    var past := Run(Initial(limits), steps).past;
    assert past.invoked[a] in past.invoked && past.invoked[b] in past.invoked;
  }

  /**
    Each request is cleared for dispatch at most once exactly when every dispatch commit found its attempt
    still AUTHORIZED; then each request reaches the Worker at most once.
   */
  lemma {:induction false} ClearedOnceExactlyWhenNoneStale(limits: Limits, steps: seq<Step>)
    ensures
      var past := Run(Initial(limits), steps).past;
      && (EachClearedOnce(past) <==> NoStaleDispatch(past))
      && (NoStaleDispatch(past) ==> EachInvokedOnce(past))
  {
    var past := Run(Initial(limits), steps).past;
    RunKeepsStaleness(limits, steps);
    RunKeepsTickets(limits, steps);
    if NoStaleDispatch(past) {
      forall j, k | 0 <= j < k < |past.cleared|
        ensures past.cleared[j].request != past.cleared[k].request
      {
        assert FirstFor(past.cleared, k);
      }
      assert EachInvokedOnce(past) by {
        forall a, b | 0 <= a < b < |past.invoked| && past.invoked[a] < |past.cleared| && past.invoked[b] < |past.cleared|
          ensures past.cleared[past.invoked[a]].request != past.cleared[past.invoked[b]].request
        {
          assert past.invoked[a] != past.invoked[b];
        }
      }
    }
    if EachClearedOnce(past) {
      forall k | 0 <= k < |past.cleared| ensures past.cleared[k].wasAuthorized {
        assert FirstFor(past.cleared, k);
      }
    }
  }

  // ------------------------------------------------------------------ a run that calls the Worker twice

  const TWO_CALLS: Limits := Limits(map[1 := IssuedBudget(40, 5, 5)], 0)

  /** Two processes without leases over one run, at the given points. */
  function Pair(first: Activity, second: Activity, db: Db, cleared: seq<Clearance>, passed: seq<nat>, invoked: seq<nat>): State {
    var row := Some(O.StartRow(3));
    State(TWO_CALLS, 0.0, row, {}, [], db, [Agent(None, true, row, first), Agent(None, true, row, second)],
          History([], cleared, passed, invoked, [Creation(9, 7, None, false, row)]))
  }

  function OneAttempt(state: AttemptState, experiment: ExperimentState, ledger: seq<Charge>): Db {
    Db(map[7 := Experiment(1, experiment)], map[9 := Attempt(7, 1, BrowserPage, false, 0, state)], ledger,
       map[DecisionAudit(9) := ExecutionDecided(Allow)], map[], map[])
  }

  const BOTH_CHARGES: seq<Charge> := [Charge(1, Some(9), WorkerInvocation, 1), Charge(1, Some(9), Request, 16)]

  const START0: State := Initial(TWO_CALLS)
  const START1: State := START0.(row := Some(O.StartRow(3)))
  const START2: State := START1.(agents := [Agent(None, true, None, Idle), Agent(None, true, None, Idle)])
  const START3: State := START2.(db := Db(map[7 := Experiment(1, Planned)], map[], [], map[], map[], map[]))

  function TwoAgents(first: Activity, second: Activity): State {
    START3.(agents := [Agent(None, true, START3.row, first), Agent(None, true, START3.row, second)])
  }

  lemma TwoProcessesExist()
    ensures Reachable(TWO_CALLS, START3)
  {
    assert START0 == Run(Initial(TWO_CALLS), []);
    ReachNext(TWO_CALLS, START0, Start(3), START1);
    ReachNext(TWO_CALLS, START1, Spawn, START1.(agents := [Agent(None, true, None, Idle)]));
    ReachNext(TWO_CALLS, START1.(agents := [Agent(None, true, None, Idle)]), Spawn, START2);
    ReachNext(TWO_CALLS, START2, AddExperiment(7, 1), START3);
  }

  lemma TwoProcessesLoad()
    ensures Reachable(TWO_CALLS, TwoAgents(Loaded(StepEntry), Loaded(StepEntry)))
  {
    TwoProcessesExist();
    var half := START3.(agents := [Agent(None, true, START3.row, Loaded(StepEntry)), Agent(None, true, None, Idle)]);
    ReachNext(TWO_CALLS, START3, Load(0, StepEntry), half);
    ReachNext(TWO_CALLS, half, Load(1, StepEntry), TwoAgents(Loaded(StepEntry), Loaded(StepEntry)));
  }

  lemma TwoProcessesCheck()
    ensures Reachable(TWO_CALLS, TwoAgents(Stepping, Stepping))
  {
    TwoProcessesLoad();
    ReachNext(TWO_CALLS, TwoAgents(Loaded(StepEntry), Loaded(StepEntry)), Check(0), TwoAgents(Stepping, Loaded(StepEntry)));
    ReachNext(TWO_CALLS, TwoAgents(Stepping, Loaded(StepEntry)), Check(1), TwoAgents(Stepping, Stepping));
  }

  lemma TwoProcessesStart()
    ensures Reachable(TWO_CALLS, TwoAgents(Authorizing(7), Stepping))
  {
    TwoProcessesCheck();
    ReachNext(TWO_CALLS, TwoAgents(Stepping, Stepping), ReadExperiment(0, 7), TwoAgents(Authorizing(7), Stepping));
  }

  lemma OneAuthorizes()
    ensures Reachable(TWO_CALLS, Pair(Stepping, Stepping, OneAttempt(Authorized, ReadyToRun, []), [], [], []))
  {
    TwoProcessesStart();
    var plan := PlanBinding(BrowserPage, false, 0);
    assert AuthorizeWrite(START3.db, 7, 9, Decided(Allow, false), plan)
        == AuthorizeResult(OneAttempt(Authorized, ReadyToRun, []), AuthorizedNotDispatched, true);
    ReachNext(TWO_CALLS, TwoAgents(Authorizing(7), Stepping), CommitAuthorization(0, 9, Decided(Allow, false), plan, false),
              Pair(Stepping, Stepping, OneAttempt(Authorized, ReadyToRun, []), [], [], []));
  }

  lemma BothReadAuthorized()
    ensures Reachable(TWO_CALLS, Pair(SawAuthorized(9), SawAuthorized(9), OneAttempt(Authorized, ReadyToRun, []), [], [], []))
  {
    OneAuthorizes();
    var db := OneAttempt(Authorized, ReadyToRun, []);
    ReachNext(TWO_CALLS, Pair(Stepping, Stepping, db, [], [], []), ReadAttempt(0, 9),
              Pair(SawAuthorized(9), Stepping, db, [], [], []));
    ReachNext(TWO_CALLS, Pair(SawAuthorized(9), Stepping, db, [], [], []), ReadAttempt(1, 9),
              Pair(SawAuthorized(9), SawAuthorized(9), db, [], [], []));
  }

  /** The first dispatch inserts both charges; a second one of the same request inserts nothing and still succeeds. */
  lemma DispatchCharges(attempt: Attempt)
    requires attempt.budget == 1
    ensures ChargeDispatch([], TWO_CALLS, attempt, 9, 16) == Some(BOTH_CHARGES)
    ensures ChargeDispatch(BOTH_CHARGES, TWO_CALLS, attempt, 9, 16) == Some(BOTH_CHARGES)
  {
    var invocation := [Charge(1, Some(9), WorkerInvocation, 1)];
    assert [] + invocation == invocation;
    assert Total([], 1, WorkerInvocation) == 0 && Total(invocation, 1, Request) == 0;
    assert BOTH_CHARGES[0].resource == WorkerInvocation && BOTH_CHARGES[1].resource == Request;
    assert InsertWithinAllowance(invocation, TWO_CALLS, true, Charge(1, Some(9), Request, 16)).ledger == BOTH_CHARGES;
  }

  lemma MarksAs(db: Db, after: Db, marked: Db)
    requires db == OneAttempt(Authorized, ReadyToRun, []) || db == after
    requires after == OneAttempt(Dispatching, RunningExperiment, BOTH_CHARGES) && marked == SetAttempt(db, 9, Dispatching)
    ensures SetExperiment(marked, 7, RunningExperiment).(ledger := BOTH_CHARGES) == after
  {
    assert marked.attempts == after.attempts;
    assert SetExperiment(marked, 7, RunningExperiment).experiments == after.experiments;
  }

  lemma BeginsAs(db: Db, after: Db)
    requires db == OneAttempt(Authorized, ReadyToRun, []) || db == after
    requires after == OneAttempt(Dispatching, RunningExperiment, BOTH_CHARGES)
    ensures BeginDispatch(db, TWO_CALLS, 9, 16) == Some(after)
  {
    DispatchCharges(db.attempts[9]);
    MarksAs(db, after, SetAttempt(db, 9, Dispatching));
  }

  lemma BeginTwice(before: Db, after: Db)
    requires before == OneAttempt(Authorized, ReadyToRun, [])
    requires after == OneAttempt(Dispatching, RunningExperiment, BOTH_CHARGES)
    ensures BeginDispatch(before, TWO_CALLS, 9, 16) == Some(after)
    ensures BeginDispatch(after, TWO_CALLS, 9, 16) == Some(after)
  {
    BeginsAs(before, after);
    BeginsAs(after, after);
  }

  function FirstClearance(): Clearance { Clearance(9, 1, Some(16), None, true) }
  function StaleClearance(): Clearance { Clearance(9, 1, Some(16), None, false) }

  const BEFORE: Db := OneAttempt(Authorized, ReadyToRun, [])
  const AFTER: Db := OneAttempt(Dispatching, RunningExperiment, BOTH_CHARGES)

  function Charged(s: State, i: nat, clearance: Clearance): State
    requires i < |s.agents|
  {
    Turn(s.(db := AFTER, past := s.past.(cleared := s.past.cleared + [clearance])), i, Cleared(|s.past.cleared|))
  }

  lemma Commits(s: State, i: nat, s': State, clearance: Clearance)
    requires Doing(s, i, Reserving(9, 16)) && 9 in s.db.attempts
    requires BeginDispatch(s.db, s.limits, 9, 16) == Some(AFTER)
    requires clearance == ClearanceOf(s, i, 9, 16) && s' == Charged(s, i, clearance)
    ensures s' == Apply(s, CommitDispatch(i))
  {
  }

  /** The dispatch commit of either process, from the reserved amount. */
  lemma FirstCommits(s: State, s': State)
    requires s == Pair(Reserving(9, 16), SawAuthorized(9), BEFORE, [], [], [])
    requires s' == Pair(Cleared(0), SawAuthorized(9), AFTER, [FirstClearance()], [], [])
    ensures Apply(s, CommitDispatch(0)) == s'
  {
    BeginTwice(BEFORE, AFTER);
    FirstCharged(s, s');
    Commits(s, 0, s', FirstClearance());
  }

  lemma FirstCharged(s: State, s': State)
    requires s == Pair(Reserving(9, 16), SawAuthorized(9), BEFORE, [], [], [])
    requires s' == Pair(Cleared(0), SawAuthorized(9), AFTER, [FirstClearance()], [], [])
    ensures ClearanceOf(s, 0, 9, 16) == FirstClearance() && s' == Charged(s, 0, FirstClearance())
  {
    assert s'.agents == s.agents[0 := s.agents[0].(doing := Cleared(0))];
    assert [] + [FirstClearance()] == [FirstClearance()];
  }

  lemma SecondCommits(s: State, s': State)
    requires s == Pair(Returned(0), Reserving(9, 16), AFTER, [FirstClearance()], [0], [0])
    requires s' == Pair(Returned(0), Cleared(1), AFTER, BOTH_CLEARANCES, [0], [0])
    ensures Apply(s, CommitDispatch(1)) == s'
  {
    BeginTwice(BEFORE, AFTER);
    Commits(s, 1, s', StaleClearance());
  }

  lemma FirstReserves()
    ensures Reachable(TWO_CALLS, Pair(Reserving(9, 16), SawAuthorized(9), BEFORE, [], [], []))
  {
    BothReadAuthorized();
    var waiting := SawAuthorized(9);
    ReachNext(TWO_CALLS, Pair(waiting, waiting, BEFORE, [], [], []), Reserve(0), Pair(Reserving(9, 16), waiting, BEFORE, [], [], []));
  }

  lemma FirstDispatches()
    ensures Reachable(TWO_CALLS, Pair(Cleared(0), SawAuthorized(9), AFTER, [FirstClearance()], [], []))
  {
    FirstReserves();
    var s := Pair(Reserving(9, 16), SawAuthorized(9), BEFORE, [], [], []);
    var s' := Pair(Cleared(0), SawAuthorized(9), AFTER, [FirstClearance()], [], []);
    FirstCommits(s, s');
    ReachNext(TWO_CALLS, s, CommitDispatch(0), s');
  }

  lemma FirstInvokes()
    ensures Reachable(TWO_CALLS, Pair(Returned(0), SawAuthorized(9), AFTER, [FirstClearance()], [0], [0]))
  {
    FirstDispatches();
    var waiting, one := SawAuthorized(9), [FirstClearance()];
    ReachNext(TWO_CALLS, Pair(Cleared(0), waiting, AFTER, one, [], []), CheckLease(0), Pair(Confirmed(0), waiting, AFTER, one, [0], []));
    ReachNext(TWO_CALLS, Pair(Confirmed(0), waiting, AFTER, one, [0], []), Invoke(0), Pair(Returned(0), waiting, AFTER, one, [0], [0]));
  }

  const BOTH_CLEARANCES: seq<Clearance> := [FirstClearance(), StaleClearance()]

  /** A second browser reservation still finds 16 requests left. */
  lemma SecondAmount()
    ensures RequestAmount(AFTER.ledger, TWO_CALLS, AFTER.attempts[9]) == Some(16)
  {
    assert BOTH_CHARGES[..1] == [Charge(1, Some(9), WorkerInvocation, 1)];
    assert Total(BOTH_CHARGES[..1], 1, Request) == 0;
    assert Total(BOTH_CHARGES, 1, Request) == 16;
  }

  lemma SecondReserves()
    ensures Reachable(TWO_CALLS, Pair(Returned(0), Reserving(9, 16), AFTER, [FirstClearance()], [0], [0]))
  {
    FirstInvokes();
    SecondAmount();
    ReachNext(TWO_CALLS, Pair(Returned(0), SawAuthorized(9), AFTER, [FirstClearance()], [0], [0]), Reserve(1),
              Pair(Returned(0), Reserving(9, 16), AFTER, [FirstClearance()], [0], [0]));
  }

  lemma SecondDispatches()
    ensures Reachable(TWO_CALLS, Pair(Returned(0), Cleared(1), AFTER, BOTH_CLEARANCES, [0], [0]))
  {
    SecondReserves();
    var s := Pair(Returned(0), Reserving(9, 16), AFTER, [FirstClearance()], [0], [0]);
    var s' := Pair(Returned(0), Cleared(1), AFTER, BOTH_CLEARANCES, [0], [0]);
    SecondCommits(s, s');
    ReachNext(TWO_CALLS, s, CommitDispatch(1), s');
  }

  const TWO_CALLED: State := Pair(Returned(0), Returned(1), AFTER, BOTH_CLEARANCES, [0, 1], [0, 1])

  lemma SecondPasses()
    ensures Reachable(TWO_CALLS, Pair(Returned(0), Confirmed(1), AFTER, BOTH_CLEARANCES, [0, 1], [0]))
  {
    SecondDispatches();
    ReachNext(TWO_CALLS, Pair(Returned(0), Cleared(1), AFTER, BOTH_CLEARANCES, [0], [0]), CheckLease(1),
              Pair(Returned(0), Confirmed(1), AFTER, BOTH_CLEARANCES, [0, 1], [0]));
  }

  /**
    Two unleased processes read the same AUTHORIZED attempt. The second dispatch finds its charges on the ledger,
    skips them as duplicates, commits over DISPATCHING and calls the Worker a second time for the same request.
   */
  lemma StaleDispatchCallsTheWorkerTwice()
    ensures Reachable(TWO_CALLS, TWO_CALLED) && !EachInvokedOnce(TWO_CALLED.past)
    ensures BOTH_CLEARANCES[0].request == BOTH_CLEARANCES[1].request && !BOTH_CLEARANCES[1].wasAuthorized
  {
    SecondPasses();
    ReachNext(TWO_CALLS, Pair(Returned(0), Confirmed(1), AFTER, BOTH_CLEARANCES, [0, 1], [0]), Invoke(1),
              TWO_CALLED);
    assert TWO_CALLED.past.invoked[0] == 0 && TWO_CALLED.past.invoked[1] == 1;
  }

  // ------------------------------------------------------------------ a run that authorizes one experiment twice

  const NINE: Attempt := Attempt(7, 1, BrowserPage, false, 0, Authorized)

  const TWO_ATTEMPTS: Db :=
    Db(map[7 := Experiment(1, ReadyToRun)], map[9 := NINE, 10 := NINE], [],
       map[DecisionAudit(9) := ExecutionDecided(Allow), DecisionAudit(10) := ExecutionDecided(Allow)], map[], map[])

  function Authorizers(first: Activity, second: Activity, db: Db, created: seq<Creation>): State {
    TwoAgents(first, second).(db := db, past := History([], [], [], [], created))
  }

  const FIRST_CREATED: Creation := Creation(9, 7, None, false, START3.row)
  const SECOND_CREATED: Creation := Creation(10, 7, None, false, START3.row)

  lemma BothReadExperiment()
    ensures Reachable(TWO_CALLS, TwoAgents(Authorizing(7), Authorizing(7)))
  {
    TwoProcessesStart();
    assert !HasAttemptFor(START3.db, 7);
    ReachNext(TWO_CALLS, TwoAgents(Authorizing(7), Stepping), ReadExperiment(1, 7), TwoAgents(Authorizing(7), Authorizing(7)));
  }

  /** A commit of an ALLOW without the hook. */
  lemma CommitsAttempt(s: State, i: nat, r: RequestId, s': State)
    requires Doing(s, i, Authorizing(7)) && s.agents[i].current.Some? && 7 in s.db.experiments && FreshRequest(s.db, r)
    ensures
      var plan := PlanBinding(BrowserPage, false, 0);
      s' == Turn(s.(db := CreateAttempt(s.db, 7, r, plan),
                    past := s.past.(created := s.past.created + [CreationOf(s, i, 7, r, false)])), i, Stepping) ==>
        s' == Apply(s, CommitAuthorization(i, r, Decided(Allow, false), PlanBinding(BrowserPage, false, 0), false))
  {
  }

  lemma FirstOfTwoCommits()
    ensures Reachable(TWO_CALLS, Authorizers(Stepping, Authorizing(7), BEFORE, [FIRST_CREATED]))
  {
    BothReadExperiment();
    var plan := PlanBinding(BrowserPage, false, 0);
    var s, s' := TwoAgents(Authorizing(7), Authorizing(7)), Authorizers(Stepping, Authorizing(7), BEFORE, [FIRST_CREATED]);
    assert CreateAttempt(s.db, 7, 9, plan) == BEFORE;
    CommitsAttempt(s, 0, 9, s');
    ReachNext(TWO_CALLS, s, CommitAuthorization(0, 9, Decided(Allow, false), plan, false), s');
  }

  /** Two unleased processes that both found the experiment without attempts both commit one. */
  lemma InterleavedReadsCommitTwoAttempts()
    ensures Reachable(TWO_CALLS, Authorizers(Stepping, Stepping, TWO_ATTEMPTS, [FIRST_CREATED, SECOND_CREATED]))
    ensures TWO_ATTEMPTS.attempts[9].experiment == TWO_ATTEMPTS.attempts[10].experiment
  {
    FirstOfTwoCommits();
    var plan := PlanBinding(BrowserPage, false, 0);
    var s := Authorizers(Stepping, Authorizing(7), BEFORE, [FIRST_CREATED]);
    var s' := Authorizers(Stepping, Stepping, TWO_ATTEMPTS, [FIRST_CREATED, SECOND_CREATED]);
    assert CreateAttempt(s.db, 7, 10, plan) == TWO_ATTEMPTS;
    CommitsAttempt(s, 1, 10, s');
    ReachNext(TWO_CALLS, s, CommitAuthorization(1, 10, Decided(Allow, false), plan, false), s');
  }
}
