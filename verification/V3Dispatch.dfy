/** Dispatch of approved queue items, unit by unit: what the append-only audit ledger guarantees over repeated calls and crashes. */
module V3Dispatch {
  import opened Wrappers
  import E = Execution

  type Queue = nat
  type Unit = string
  type Experiment = nat

  /** Mutation and protocol families are dispatched one named unit at a time, others as a whole. */
  datatype Family = Mutation | Protocol | Whole

  datatype ItemState = Unapproved | Approved | Ran | BlockedItem

  datatype Item = Item(run: nat, family: Family, state: ItemState)

  datatype Reason = UnitRequired | NotCompiled | DispatchedReason

  datatype Event =
    | Intent(queue: Queue, unit: Unit, experiment: Experiment)
    | Outcome(queue: Queue, unit: Unit, sentAs: Option<Experiment>, reason: Reason, coverage: bool)
    | DispatchBlocked(queue: Queue)
    | Dispatched(queue: Queue, experiment: Experiment)

  /** An experiment handed to execution, for which unit, and how its loop ended, when it did before a crash. */
  datatype Sent = Sent(queue: Queue, unit: Option<Unit>, experiment: Experiment, ended: Option<E.LoopStatus>)

  /** `prepared` numbers the experiments; a new one gets the next number. */
  datatype State = State(items: map<Queue, Item>, events: seq<Event>, sent: seq<Sent>, prepared: nat)

  /** The transaction after which the process dies, if it does. */
  datatype CrashPoint = BeforePrepare | AfterPrepare | AfterIntent | DuringExecution | NoCrash

  /** One call, with what the compiler and the execution loop will answer it. */
  datatype Call = Call(
    run: nat,
    queue: Queue,
    cell: Option<Unit>,
    step: Option<Unit>,
    compiles: bool,
    status: E.LoopStatus,
    crash: CrashPoint)

  datatype Answer =
    | Refused
    | AlreadyRun
    | InvalidInput
    | UnitAlreadyAttempted
    | CompileMiss
    | CoreDenied
    | NeedsReview
    | DispatchedAs(status: E.LoopStatus)
    | Crashed

  function UnitOf(call: Call, family: Family): Option<Unit> {
    match family
    case Mutation => call.cell
    case Protocol => call.step
    case Whole => None
  }

  predicate IsUnitEvent(event: Event, queue: Queue, unit: Unit) {
    (event.Intent? || event.Outcome?) && event.queue == queue && event.unit == unit
  }

  predicate PriorUnit(events: seq<Event>, queue: Queue, unit: Unit) {
    exists k :: 0 <= k < |events| && IsUnitEvent(events[k], queue, unit)
  }

  // ------------------------------------------------------------------ one call

  datatype Result = Result(state: State, answer: Answer)

  function Append(s: State, event: Event): State {
    s.(events := s.events + [event])
  }

  /** Compare-and-set of the queue state from APPROVED, with its audit; a lost race writes neither. */
  function SetItem(s: State, queue: Queue, state: ItemState, event: Event): State {
    if queue in s.items && s.items[queue].state.Approved?
    then Append(s.(items := s.items[queue := s.items[queue].(state := state)]), event)
    else s
  }

  function Rejected(status: E.LoopStatus): bool {
    status.DispatchDenied? || status.HumanReviewRequired?
  }

  /** After the experiment came back from execution. */
  function Conclude(s: State, call: Call, unit: Option<Unit>, experiment: Experiment): Result {
    if Rejected(call.status) then
      Result(SetItem(s, call.queue, BlockedItem, DispatchBlocked(call.queue)),
             if call.status.DispatchDenied? then CoreDenied else NeedsReview)
    else if unit.Some? then
      Result(Append(s, Outcome(call.queue, unit.value, Some(experiment), DispatchedReason, call.status.ObservationProduced?)),
             DispatchedAs(call.status))
    else Result(SetItem(s, call.queue, Ran, Dispatched(call.queue, experiment)), DispatchedAs(call.status))
  }

  /** Prepared and, for a unit, intended: the experiment is handed to execution. */
  function Send(s: State, call: Call, unit: Option<Unit>, experiment: Experiment): Result {
    var ended := if call.crash.DuringExecution? then None else Some(call.status);
    var handed := s.(sent := s.sent + [Sent(call.queue, unit, experiment, ended)]);
    if call.crash.DuringExecution? then Result(handed, Crashed) else Conclude(handed, call, unit, experiment)
  }

  /** The compiled plan becomes an experiment; a unit's intent is recorded before anything is sent. */
  function Prepare(s: State, call: Call, unit: Option<Unit>): Result {
    if call.crash.BeforePrepare? then Result(s, Crashed)
    else
      var experiment := s.prepared;
      var prepared := s.(prepared := s.prepared + 1);
      if call.crash.AfterPrepare? then Result(prepared, Crashed)
      else
        var intended := if unit.Some? then Append(prepared, Intent(call.queue, unit.value, experiment)) else prepared;
        if call.crash.AfterIntent? then Result(intended, Crashed) else Send(intended, call, unit, experiment)
  }

  function Compile(s: State, call: Call, family: Family, unit: Option<Unit>): Result {
    if call.compiles then Prepare(s, call, unit)
    else if family.Whole? then
      Result(SetItem(s, call.queue, BlockedItem, DispatchBlocked(call.queue)), CompileMiss)
    else
      Result(Append(s, Outcome(call.queue, if unit.Some? then unit.value else "", None, NotCompiled, false)), CompileMiss)
  }

  function Execute(s: State, call: Call): Result {
    if call.queue !in s.items || s.items[call.queue].run != call.run
       || !(s.items[call.queue].state.Approved? || s.items[call.queue].state.Ran?)
    then Result(s, Refused)
    else if s.items[call.queue].state.Ran? then Result(s, AlreadyRun)
    else
      var family := s.items[call.queue].family;
      var unit := UnitOf(call, family);
      if !family.Whole? && unit.None? then Result(Append(s, Outcome(call.queue, "", None, UnitRequired, false)), InvalidInput)
      else if unit.Some? && PriorUnit(s.events, call.queue, unit.value) then Result(s, UnitAlreadyAttempted)
      else Compile(s, call, family, unit)
  }

  function Calls(s: State, calls: seq<Call>): State {
    if calls == [] then s else Execute(Calls(s, calls[..|calls| - 1]), calls[|calls| - 1]).state
  }

  /** The use case, appending audits and moving queue states one transaction after the other. */
  class DispatchApprovedV3Queue {
    var items: map<Queue, Item>
    var events: seq<Event>
    var sent: seq<Sent>
    var prepared: nat

    constructor (items: map<Queue, Item>)
      ensures Contents() == State(items, [], [], 0)
    {
      this.items := items;
      events, sent, prepared := [], [], 0;
    }

    function Contents(): State
      reads this
    {
      State(items, events, sent, prepared)
    }

    method FindPriorUnit(queue: Queue, unit: Unit) returns (found: bool)
      ensures found == PriorUnit(events, queue, unit)
    {
      for i := 0 to |events|
        invariant !exists k :: 0 <= k < i && IsUnitEvent(events[k], queue, unit)
      {
        if IsUnitEvent(events[i], queue, unit) {
          return true;
        }
      }
      found := false;
    }

    method AuditUnit(event: Event)
      modifies this`events
      ensures Contents() == Append(old(Contents()), event)
    {
      events := events + [event];
    }

    /** Shared by blocking an item and marking it run. */
    method MoveItem(queue: Queue, state: ItemState, event: Event)
      modifies this`items, this`events
      ensures Contents() == SetItem(old(Contents()), queue, state, event)
    {
      if queue !in items || !items[queue].state.Approved? {
        return;
      }
      items := items[queue := items[queue].(state := state)];
      events := events + [event];
    }

    method Dispatch(call: Call, unit: Option<Unit>) returns (answer: Answer)
      modifies this
      ensures Result(Contents(), answer) == Prepare(old(Contents()), call, unit)
    {
      if call.crash.BeforePrepare? {
        return Crashed;
      }
      var experiment := prepared;
      prepared := prepared + 1;
      if call.crash.AfterPrepare? {
        return Crashed;
      }
      if unit.Some? {
        AuditUnit(Intent(call.queue, unit.value, experiment));
      }
      if call.crash.AfterIntent? {
        return Crashed;
      }
      if call.crash.DuringExecution? {
        sent := sent + [Sent(call.queue, unit, experiment, None)];
        return Crashed;
      }
      sent := sent + [Sent(call.queue, unit, experiment, Some(call.status))];
      if call.status.DispatchDenied? {
        MoveItem(call.queue, BlockedItem, DispatchBlocked(call.queue));
        return CoreDenied;
      }
      if call.status.HumanReviewRequired? {
        MoveItem(call.queue, BlockedItem, DispatchBlocked(call.queue));
        return NeedsReview;
      }
      var coverage := call.status.ObservationProduced?;
      if unit.Some? {
        AuditUnit(Outcome(call.queue, unit.value, Some(experiment), DispatchedReason, coverage));
      } else {
        MoveItem(call.queue, Ran, Dispatched(call.queue, experiment));
      }
      return DispatchedAs(call.status);
    }

    method ExecuteCall(call: Call) returns (answer: Answer)
      modifies this
      ensures Result(Contents(), answer) == Execute(old(Contents()), call)
    {
      if call.queue !in items || items[call.queue].run != call.run {
        return Refused;
      }
      var item := items[call.queue];
      if !item.state.Approved? && !item.state.Ran? {
        return Refused;
      }
      if item.state.Ran? {
        return AlreadyRun;
      }
      var unit := UnitOf(call, item.family);
      if !item.family.Whole? {
        if unit.None? {
          AuditUnit(Outcome(call.queue, "", None, UnitRequired, false));
          return InvalidInput;
        }
        var prior := FindPriorUnit(call.queue, unit.value);
        if prior {
          return UnitAlreadyAttempted;
        }
      }
      if !call.compiles {
        if !item.family.Whole? {
          AuditUnit(Outcome(call.queue, unit.value, None, NotCompiled, false));
        } else {
          MoveItem(call.queue, BlockedItem, DispatchBlocked(call.queue));
        }
        return CompileMiss;
      }
      answer := Dispatch(call, unit);
    }
  }

  // ------------------------------------------------------------------ histories

  /** What was sent for a unit follows an intent of the same unit and experiment. */
  ghost predicate Intended(s: State, sent: Sent) {
    sent.experiment < s.prepared
    && (sent.unit.Some? ==>
          exists k :: 0 <= k < |s.events| && s.events[k] == Intent(sent.queue, sent.unit.value, sent.experiment))
  }

  predicate SameUnit(a: Sent, b: Sent) {
    a.queue == b.queue && a.unit.Some? && a.unit == b.unit
  }

  ghost predicate UnitsSentOnce(sent: seq<Sent>) {
    forall i, j :: 0 <= i < j < |sent| ==> !SameUnit(sent[i], sent[j])
  }

  ghost predicate ExperimentsSentOnce(sent: seq<Sent>) {
    forall i, j :: 0 <= i < j < |sent| ==> sent[i].experiment != sent[j].experiment
  }

  /** A coverage-eligible outcome at position `k`: sent for that unit, its loop produced an observation, after its intent. */
  ghost predicate CoverageEarned(s: State, k: nat)
    requires k < |s.events|
  {
    s.events[k].Outcome? && s.events[k].coverage ==>
      && s.events[k].sentAs.Some?
      && Sent(s.events[k].queue, Some(s.events[k].unit), s.events[k].sentAs.value, Some(E.ObservationProduced)) in s.sent
      && exists j :: 0 <= j < k && s.events[j] == Intent(s.events[k].queue, s.events[k].unit, s.events[k].sentAs.value)
  }

  ghost predicate Inv(s: State) {
    && UnitsSentOnce(s.sent) && ExperimentsSentOnce(s.sent)
    && (forall i :: 0 <= i < |s.sent| ==> Intended(s, s.sent[i]))
    && (forall k :: 0 <= k < |s.events| ==> CoverageEarned(s, k))
  }

  /** Events and prepared experiments only grow, nothing new is sent, and no new outcome claims coverage. */
  ghost predicate Grows(s: State, s': State) {
    && s.events <= s'.events && s'.sent == s.sent && s.prepared <= s'.prepared
    && forall k :: |s.events| <= k < |s'.events| && s'.events[k].Outcome? ==> !s'.events[k].coverage
  }

  lemma IntentPersists(s: State, s': State, sent: Sent)
    requires Intended(s, sent) && s.events <= s'.events && s.prepared <= s'.prepared
    ensures Intended(s', sent)
  {
    if sent.unit.Some? {
      var k :| 0 <= k < |s.events| && s.events[k] == Intent(sent.queue, sent.unit.value, sent.experiment);
      assert s'.events[k] == s.events[k];
    }
  }

  lemma EarnedPersists(s: State, s': State, k: nat)
    requires k < |s.events| && CoverageEarned(s, k) && s.events <= s'.events && s.sent <= s'.sent
    ensures CoverageEarned(s', k)
  {
    assert s'.events[k] == s.events[k];
    if s.events[k].Outcome? && s.events[k].coverage {
      var j :| 0 <= j < k && s.events[j] == Intent(s.events[k].queue, s.events[k].unit, s.events[k].sentAs.value);
      assert s'.events[j] == s.events[j];
    }
  }

  lemma GrowthKeepsInv(s: State, s': State)
    requires Inv(s) && Grows(s, s')
    ensures Inv(s')
  {
    forall i | 0 <= i < |s'.sent| ensures Intended(s', s'.sent[i]) {
      IntentPersists(s, s', s.sent[i]);
    }
    forall k | 0 <= k < |s'.events| ensures CoverageEarned(s', k) {
      if k < |s.events| {
        EarnedPersists(s, s', k);
      }
    }
  }

  /** The unit, if any, has its intent as the last event and was never sent before. */
  lemma SendKeepsInv(s: State, call: Call, unit: Option<Unit>, experiment: Experiment)
    requires Inv(s) && experiment < s.prepared
    requires forall i :: 0 <= i < |s.sent| ==> s.sent[i].experiment < experiment
    requires unit.Some? ==> s.events != [] && s.events[|s.events| - 1] == Intent(call.queue, unit.value, experiment)
    requires forall i :: 0 <= i < |s.sent| ==> !SameUnit(s.sent[i], Sent(call.queue, unit, experiment, None))
    ensures Inv(Send(s, call, unit, experiment).state)
  {
    var ended := if call.crash.DuringExecution? then None else Some(call.status);
    var one := Sent(call.queue, unit, experiment, ended);
    var handed := s.(sent := s.sent + [one]);
    HandingKeepsInv(s, handed, one);
    if !call.crash.DuringExecution? {
      ConcludeKeepsInv(handed, call, unit, experiment, one);
    }
  }

  lemma HandingKeepsInv(s: State, handed: State, one: Sent)
    requires Inv(s) && handed == s.(sent := s.sent + [one]) && one.experiment < s.prepared
    requires forall i :: 0 <= i < |s.sent| ==> s.sent[i].experiment < one.experiment && !SameUnit(s.sent[i], one)
    requires one.unit.Some? ==> s.events != [] && s.events[|s.events| - 1] == Intent(one.queue, one.unit.value, one.experiment)
    ensures Inv(handed)
  {
    forall i | 0 <= i < |handed.sent| ensures Intended(handed, handed.sent[i]) {
      if i < |s.sent| {
        IntentPersists(s, handed, s.sent[i]);
      }
    }
    forall k | 0 <= k < |handed.events| ensures CoverageEarned(handed, k) {
      EarnedPersists(s, handed, k);
    }
  }

  lemma ConcludeKeepsInv(s: State, call: Call, unit: Option<Unit>, experiment: Experiment, one: Sent)
    requires Inv(s) && one in s.sent && one == Sent(call.queue, unit, experiment, Some(call.status))
    requires unit.Some? ==> s.events != [] && s.events[|s.events| - 1] == Intent(call.queue, unit.value, experiment)
    ensures Inv(Conclude(s, call, unit, experiment).state)
  {
    var s' := Conclude(s, call, unit, experiment).state;
    if unit.Some? && !Rejected(call.status) && call.status.ObservationProduced? {
      forall i | 0 <= i < |s'.sent| ensures Intended(s', s'.sent[i]) {
        IntentPersists(s, s', s.sent[i]);
      }
      forall k | 0 <= k < |s'.events| ensures CoverageEarned(s', k) {
        if k < |s.events| {
          EarnedPersists(s, s', k);
        } else {
          assert s'.events[k - 1] == s.events[|s.events| - 1];
        }
      }
    } else {
      GrowthKeepsInv(s, s');
    }
  }

  lemma NotSentBefore(s: State, queue: Queue, unit: Unit, i: nat)
    requires Inv(s) && !PriorUnit(s.events, queue, unit) && i < |s.sent|
    ensures !(s.sent[i].queue == queue && s.sent[i].unit == Some(unit))
  {
    forall k | 0 <= k < |s.events| ensures s.events[k] != Intent(queue, unit, s.sent[i].experiment) {
      assert !IsUnitEvent(s.events[k], queue, unit);
    }
    assert Intended(s, s.sent[i]);
  }

  lemma PrepareKeepsInv(s: State, call: Call, unit: Option<Unit>)
    requires Inv(s) && (unit.Some? ==> !PriorUnit(s.events, call.queue, unit.value))
    ensures Inv(Prepare(s, call, unit).state)
  {
    if !call.crash.BeforePrepare? {
      var experiment := s.prepared;
      var prepared := s.(prepared := s.prepared + 1);
      GrowthKeepsInv(s, prepared);
      if !call.crash.AfterPrepare? {
        var intended := if unit.Some? then Append(prepared, Intent(call.queue, unit.value, experiment)) else prepared;
        GrowthKeepsInv(prepared, intended);
        if !call.crash.AfterIntent? {
          forall i | 0 <= i < |s.sent|
            ensures s.sent[i].experiment < experiment
            ensures !SameUnit(s.sent[i], Sent(call.queue, unit, experiment, None))
          {
            assert Intended(s, s.sent[i]);
            if unit.Some? {
              NotSentBefore(s, call.queue, unit.value, i);
            }
          }
          SendKeepsInv(intended, call, unit, experiment);
        }
      }
    }
  }

  lemma ExecuteKeepsInv(s: State, call: Call)
    requires Inv(s)
    ensures Inv(Execute(s, call).state)
  {
    var s' := Execute(s, call).state;
    if s' != s {
      var family := s.items[call.queue].family;
      var unit := UnitOf(call, family);
      if (family.Whole? || unit.Some?) && call.compiles {
        PrepareKeepsInv(s, call, unit);
      } else {
        GrowthKeepsInv(s, s');
      }
    }
  }

  lemma {:induction false} CallsKeepInv(items: map<Queue, Item>, calls: seq<Call>)
    ensures Inv(Calls(State(items, [], [], 0), calls))
  {
    if calls != [] {
      CallsKeepInv(items, calls[..|calls| - 1]);
      ExecuteKeepsInv(Calls(State(items, [], [], 0), calls[..|calls| - 1]), calls[|calls| - 1]);
    }
  }

  /** Over any sequence of calls and crashes, each unit of a queue item has at most one experiment sent to execution. */
  lemma {:induction false} EachUnitIsSentAtMostOnce(items: map<Queue, Item>, calls: seq<Call>)
    ensures UnitsSentOnce(Calls(State(items, [], [], 0), calls).sent)
    ensures ExperimentsSentOnce(Calls(State(items, [], [], 0), calls).sent)
  {
    CallsKeepInv(items, calls);
  }

  /** Coverage is only claimed after the intent of the same unit and experiment, and for a loop that produced an observation. */
  lemma {:induction false} CoverageIsEarned(items: map<Queue, Item>, calls: seq<Call>, k: nat)
    requires k < |Calls(State(items, [], [], 0), calls).events|
    ensures CoverageEarned(Calls(State(items, [], [], 0), calls), k)
  {
    CallsKeepInv(items, calls);
  }

  /** A unit that left any trace is never compiled, prepared or sent again, whatever later calls ask for. */
  lemma {:induction false} AttemptedUnitStaysClosed(s: State, calls: seq<Call>, queue: Queue, unit: Unit)
    requires PriorUnit(s.events, queue, unit)
    ensures PriorUnit(Calls(s, calls).events, queue, unit)
    ensures forall i :: |s.sent| <= i < |Calls(s, calls).sent| ==>
              !(Calls(s, calls).sent[i].queue == queue && Calls(s, calls).sent[i].unit == Some(unit))
    ensures s.sent <= Calls(s, calls).sent
  {
    if calls != [] {
      var before, call := Calls(s, calls[..|calls| - 1]), calls[|calls| - 1];
      AttemptedUnitStaysClosed(s, calls[..|calls| - 1], queue, unit);
      ExecuteAppends(before, call, Execute(before, call).state);
      var k :| 0 <= k < |before.events| && IsUnitEvent(before.events[k], queue, unit);
      assert IsUnitEvent(Execute(before, call).state.events[k], queue, unit);
    }
  }

  lemma ExecuteAppends(s: State, call: Call, s': State)
    requires s' == Execute(s, call).state
    ensures s.events <= s'.events
    ensures s'.sent == s.sent || exists one :: SentNow(s, call, one) && s'.sent == s.sent + [one]
  {
    if s'.sent != s.sent {
      assert SentNow(s, call, s'.sent[|s.sent|]);
    }
  }

  predicate SentNow(s: State, call: Call, one: Sent) {
    one.queue == call.queue && (one.unit.Some? ==> !PriorUnit(s.events, one.queue, one.unit.value))
  }

  /** An item that left APPROVED keeps its state for good, and nothing more is sent for it. */
  lemma {:induction false} SettledItemStaysSettled(s: State, calls: seq<Call>, queue: Queue)
    requires queue in s.items && !s.items[queue].state.Approved?
    ensures queue in Calls(s, calls).items && Calls(s, calls).items[queue] == s.items[queue]
    ensures s.sent <= Calls(s, calls).sent
    ensures forall i :: |s.sent| <= i < |Calls(s, calls).sent| ==> Calls(s, calls).sent[i].queue != queue
  {
    if calls != [] {
      var before, call := Calls(s, calls[..|calls| - 1]), calls[|calls| - 1];
      SettledItemStaysSettled(s, calls[..|calls| - 1], queue);
      SettledItemIsRefused(before, call, Execute(before, call).state, queue);
    }
  }

  lemma SettledItemIsRefused(s: State, call: Call, s': State, queue: Queue)
    requires queue in s.items && !s.items[queue].state.Approved? && s' == Execute(s, call).state
    ensures queue in s'.items && s'.items[queue] == s.items[queue]
    ensures s'.sent == s.sent || (|s'.sent| == |s.sent| + 1 && s.sent <= s'.sent && s'.sent[|s.sent|].queue == call.queue != queue)
  {
  }

  // ------------------------------------------------------------------ what one call answers and leaves

  /** The named unit of a call: a cell for a mutation, a step for a protocol, none for the rest. */
  predicate Names(call: Call, family: Family, unit: Option<Unit>) {
    && (family.Mutation? ==> unit == call.cell) && (family.Protocol? ==> unit == call.step)
    && (family.Whole? ==> unit == None)
  }

  predicate Approves(s: State, call: Call) {
    call.queue in s.items && s.items[call.queue].run == call.run && s.items[call.queue].state == Approved
  }

  /** An approved item of the run, with a unit that has left no trace, or none where none is needed. */
  predicate Eligible(s: State, call: Call, unit: Option<Unit>) {
    && Approves(s, call) && (s.items[call.queue].family == Whole || unit.Some?)
    && (unit.Some? ==>
          forall k :: 0 <= k < |s.events| ==>
            !(match s.events[k]
              case Intent(queue, u, _) => queue == call.queue && u == unit.value
              case Outcome(queue, u, _, _, _) => queue == call.queue && u == unit.value
              case _ => false))
  }

  lemma EligibleExactly(s: State, call: Call, unit: Option<Unit>)
    requires Approves(s, call) && (s.items[call.queue].family == Whole || unit.Some?)
    ensures Eligible(s, call, unit) <==> (unit.Some? ==> !PriorUnit(s.events, call.queue, unit.value))
  {
    if unit.Some? && Eligible(s, call, unit) {
      forall k | 0 <= k < |s.events| ensures !IsUnitEvent(s.events[k], call.queue, unit.value) {
      }
    }
    if unit.Some? && !PriorUnit(s.events, call.queue, unit.value) {
      assert forall k :: 0 <= k < |s.events| ==> !IsUnitEvent(s.events[k], call.queue, unit.value);
    }
  }

  /** Each answer stands for its own situation. */
  lemma CallAnswers(s: State, call: Call, unit: Option<Unit>)
    requires call.queue in s.items ==> Names(call, s.items[call.queue].family, unit)
    ensures
      var answer, eligible := Execute(s, call).answer, Eligible(s, call, unit);
      var finished := eligible && call.compiles && call.crash.NoCrash?;
      && (answer.AlreadyRun? <==>
            call.queue in s.items && s.items[call.queue].run == call.run && s.items[call.queue].state == Ran)
      && (answer.Refused? <==> !Approves(s, call) && !answer.AlreadyRun?)
      && (answer.InvalidInput? <==> Approves(s, call) && s.items[call.queue].family != Whole && unit.None?)
      && (answer.UnitAlreadyAttempted? <==> Approves(s, call) && !answer.InvalidInput? && !eligible)
      && (answer.CompileMiss? <==> eligible && !call.compiles)
      && (answer.Crashed? <==> eligible && call.compiles && !call.crash.NoCrash?)
      && (answer.CoreDenied? <==> finished && call.status == E.DispatchDenied)
      && (answer.NeedsReview? <==> finished && call.status == E.HumanReviewRequired)
      && (answer.DispatchedAs? ==> answer.status == call.status)
  {
    if Approves(s, call) && (s.items[call.queue].family == Whole || unit.Some?) {
      EligibleExactly(s, call, unit);
    }
  }

  /** The events of a call, in order. */
  function EventsOf(s: State, call: Call, unit: Option<Unit>, answer: Answer): seq<Event> {
    var u := if unit.Some? then unit.value else "";
    var intent := if unit.Some? then [Intent(call.queue, u, s.prepared)] else [];
    match answer
    case InvalidInput => [Outcome(call.queue, "", None, UnitRequired, false)]
    case CompileMiss => if unit.Some? then [Outcome(call.queue, u, None, NotCompiled, false)] else [DispatchBlocked(call.queue)]
    case Crashed => if call.crash.BeforePrepare? || call.crash.AfterPrepare? then [] else intent
    case CoreDenied => intent + [DispatchBlocked(call.queue)]
    case NeedsReview => intent + [DispatchBlocked(call.queue)]
    case DispatchedAs(status) =>
      intent + [if unit.Some? then Outcome(call.queue, u, Some(s.prepared), DispatchedReason, status.ObservationProduced?)
                else Dispatched(call.queue, s.prepared)]
    case _ => []
  }

  /** What each answer leaves: its events, the item's state, and one experiment sent when execution was reached. */
  lemma CallLeaves(s: State, call: Call, unit: Option<Unit>)
    requires call.queue in s.items ==> Names(call, s.items[call.queue].family, unit)
    ensures
      var after, answer := Execute(s, call).state, Execute(s, call).answer;
      var blocks := answer.CoreDenied? || answer.NeedsReview? || (answer.CompileMiss? && unit.None?);
      var runs := answer.DispatchedAs? && unit.None?;
      var reached := answer.CoreDenied? || answer.NeedsReview? || answer.DispatchedAs?;
      && after.events == s.events + EventsOf(s, call, unit, answer)
      && (after.items == if blocks then s.items[call.queue := s.items[call.queue].(state := BlockedItem)]
                         else if runs then s.items[call.queue := s.items[call.queue].(state := Ran)] else s.items)
      && (after.sent == s.sent + if reached then [Sent(call.queue, unit, s.prepared, Some(call.status))]
                                 else if answer.Crashed? && call.crash.DuringExecution?
                                      then [Sent(call.queue, unit, s.prepared, None)] else [])
      && after.prepared - s.prepared == (if reached || (answer.Crashed? && !call.crash.BeforePrepare?) then 1 else 0)
  {
  }
}
