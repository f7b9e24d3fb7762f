/**
  Unit dispatch when calls overlap: the ledger check and the intent are separate transactions, so two calls of one unit
  can both find the ledger empty.
 */
module V3Overlap {
  import opened Wrappers
  import opened V3Dispatch

  /** Where a call for a named unit stands; `Gone` is finished or dead. */
  datatype Stage = Checked | Prepared(experiment: Experiment) | Recorded(experiment: Experiment) | Gone

  datatype Running = Running(queue: Queue, unit: Unit, stage: Stage)

  datatype Handed = Handed(queue: Queue, unit: Unit, experiment: Experiment)

  datatype System = System(events: seq<Event>, handed: seq<Handed>, prepared: nat, calls: seq<Running>)

  datatype Move =
    | Check(queue: Queue, unit: Unit)
    | Refuse(i: nat)
    | Compose(i: nat)
    | RecordIntent(i: nat)
    | Hand(i: nat)
    | Die(i: nat)

  const EMPTY: System := System([], [], 0, [])

  function At(s: System, i: nat, stage: Stage): System
    requires i < |s.calls|
  {
    s.(calls := s.calls[i := s.calls[i].(stage := stage)])
  }

  function Apply(s: System, move: Move): System {
    match move
    case Check(queue, unit) =>
      s.(calls := s.calls + [Running(queue, unit, if PriorUnit(s.events, queue, unit) then Gone else Checked)])
    case Refuse(i) =>
      if i < |s.calls| && s.calls[i].stage.Checked?
      then At(s.(events := s.events + [Outcome(s.calls[i].queue, s.calls[i].unit, None, NotCompiled, false)]), i, Gone)
      else s
    case Compose(i) =>
      if i < |s.calls| && s.calls[i].stage.Checked? then At(s.(prepared := s.prepared + 1), i, Prepared(s.prepared)) else s
    case RecordIntent(i) =>
      if i < |s.calls| && s.calls[i].stage.Prepared?
      then
        At(s.(events := s.events + [Intent(s.calls[i].queue, s.calls[i].unit, s.calls[i].stage.experiment)]), i,
           Recorded(s.calls[i].stage.experiment))
      else s
    case Hand(i) =>
      if i < |s.calls| && s.calls[i].stage.Recorded?
      then At(s.(handed := s.handed + [Handed(s.calls[i].queue, s.calls[i].unit, s.calls[i].stage.experiment)]), i, Gone)
      else s
    case Die(i) => if i < |s.calls| then At(s, i, Gone) else s
  }

  function Run(s: System, moves: seq<Move>): System {
    if moves == [] then s else Apply(Run(s, moves[..|moves| - 1]), moves[|moves| - 1])
  }

  // ------------------------------------------------------------------ non-overlapping calls

  /** The call has checked the ledger and not yet recorded its intent. */
  predicate Between(call: Running, queue: Queue, unit: Unit) {
    call.queue == queue && call.unit == unit && (call.stage.Checked? || call.stage.Prepared?)
  }

  /** No call of the unit is between its check and its intent; a call that will find a trace of the unit does not matter. */
  predicate Idle(s: System, queue: Queue, unit: Unit) {
    forall i :: 0 <= i < |s.calls| ==> !Between(s.calls[i], queue, unit)
  }

  /** A call checks the ledger, finds no trace of its unit, and another call of the unit is about to record its intent. */
  predicate Overlaps(s: System, move: Move) {
    move.Check? && !PriorUnit(s.events, move.queue, move.unit) && !Idle(s, move.queue, move.unit)
  }

  predicate NoOverlap(s: System, moves: seq<Move>) {
    forall n :: 0 <= n < |moves| ==> !Overlaps(Run(s, moves[..n]), moves[n])
  }

  ghost predicate UnitsHandedOnce(handed: seq<Handed>) {
    forall i, j :: 0 <= i < j < |handed| ==> !(handed[i].queue == handed[j].queue && handed[i].unit == handed[j].unit)
  }

  predicate SameIntent(a: Event, b: Event) {
    a.Intent? && b.Intent? && a.queue == b.queue && a.unit == b.unit
  }

  function ExperimentOf(call: Running): Option<Experiment> {
    match call.stage
    case Prepared(experiment) => Some(experiment)
    case Recorded(experiment) => Some(experiment)
    case _ => None
  }

  /** What a call's stage says about ledger and history. */
  ghost predicate Standing(s: System, call: Running) {
    && (Between(call, call.queue, call.unit) ==> !PriorUnit(s.events, call.queue, call.unit))
    && (ExperimentOf(call).Some? ==>
          ExperimentOf(call).value < s.prepared
          && forall k :: 0 <= k < |s.handed| ==> s.handed[k].experiment != ExperimentOf(call).value)
    && (call.stage.Recorded? ==> Intent(call.queue, call.unit, call.stage.experiment) in s.events)
  }

  predicate Apart(a: Running, b: Running) {
    && (Between(a, a.queue, a.unit) ==> !Between(b, a.queue, a.unit))
    && (ExperimentOf(a).Some? ==> ExperimentOf(a) != ExperimentOf(b))
  }

  ghost predicate LedgerInv(s: System) {
    && (forall j, k :: 0 <= j < k < |s.events| ==> !SameIntent(s.events[j], s.events[k]))
    && (forall k :: 0 <= k < |s.handed| ==>
          && s.handed[k].experiment < s.prepared
          && Intent(s.handed[k].queue, s.handed[k].unit, s.handed[k].experiment) in s.events)
    && (forall j, k :: 0 <= j < k < |s.handed| ==> s.handed[j].experiment != s.handed[k].experiment)
  }

  ghost predicate Inv(s: System) {
    && LedgerInv(s)
    && (forall i :: 0 <= i < |s.calls| ==> Standing(s, s.calls[i]))
    && (forall i, j :: 0 <= i < |s.calls| && 0 <= j < |s.calls| && i != j ==> Apart(s.calls[i], s.calls[j]))
  }

  /** Each unit has one intent at most, and what is handed has its own. */
  lemma IntentsDecideHanding(s: System)
    requires LedgerInv(s)
    ensures UnitsHandedOnce(s.handed)
  {
    forall i, j | 0 <= i < j < |s.handed|
      ensures !(s.handed[i].queue == s.handed[j].queue && s.handed[i].unit == s.handed[j].unit)
    {
      var m :| 0 <= m < |s.events| && s.events[m] == Intent(s.handed[i].queue, s.handed[i].unit, s.handed[i].experiment);
      var n :| 0 <= n < |s.events| && s.events[n] == Intent(s.handed[j].queue, s.handed[j].unit, s.handed[j].experiment);
      assert m != n;
      assert !SameIntent(s.events[if m < n then m else n], s.events[if m < n then n else m]);
    }
  }

  lemma OtherEventLeavesNoTrace(events: seq<Event>, event: Event, queue: Queue, unit: Unit)
    requires !IsUnitEvent(event, queue, unit) && !PriorUnit(events, queue, unit)
    ensures !PriorUnit(events + [event], queue, unit)
  {
    var longer := events + [event];
    forall k | 0 <= k < |longer| ensures !IsUnitEvent(longer[k], queue, unit) {
      if k < |events| {
        assert !IsUnitEvent(events[k], queue, unit);
      }
    }
  }

  lemma CheckKeepsInv(s: System, queue: Queue, unit: Unit, s': System)
    requires Inv(s) && s' == Apply(s, Check(queue, unit)) && !Overlaps(s, Check(queue, unit))
    ensures Inv(s')
  {
    forall i | 0 <= i < |s'.calls| ensures Standing(s', s'.calls[i]) {
      if i < |s.calls| {
        assert Standing(s, s.calls[i]);
      }
    }
    forall i, j | 0 <= i < |s'.calls| && 0 <= j < |s'.calls| && i != j ensures Apart(s'.calls[i], s'.calls[j]) {
      if i < |s.calls| && j < |s.calls| {
        assert Apart(s.calls[i], s.calls[j]);
      } else {
        var other := if i < |s.calls| then i else j;
        assert Standing(s, s.calls[other]);
      }
    }
  }

  /** An event of the unit of call `i`, which leaves the check: nobody else is waiting for that unit. */
  lemma EventKeepsInv(s: System, i: nat, event: Event, stage: Stage, s': System)
    requires Inv(s) && i < |s.calls| && Between(s.calls[i], s.calls[i].queue, s.calls[i].unit)
    requires IsUnitEvent(event, s.calls[i].queue, s.calls[i].unit)
    requires s' == At(s.(events := s.events + [event]), i, stage)
    requires stage.Gone? || (s.calls[i].stage.Prepared? && stage == Recorded(s.calls[i].stage.experiment)
                             && event == Intent(s.calls[i].queue, s.calls[i].unit, s.calls[i].stage.experiment))
    ensures Inv(s')
  {
    EventKeepsLedger(s, i, event, s');
    assert Standing(s, s.calls[i]);
    forall j | 0 <= j < |s'.calls| ensures Standing(s', s'.calls[j]) {
      assert Standing(s, s.calls[j]);
      if j != i {
        assert Apart(s.calls[i], s.calls[j]);
        if Between(s.calls[j], s.calls[j].queue, s.calls[j].unit) {
          OtherEventLeavesNoTrace(s.events, event, s.calls[j].queue, s.calls[j].unit);
        }
      } else {
        assert s'.events[|s.events|] == event;
      }
    }
    forall j, k | 0 <= j < |s'.calls| && 0 <= k < |s'.calls| && j != k ensures Apart(s'.calls[j], s'.calls[k]) {
      assert Apart(s.calls[j], s.calls[k]) && Apart(s.calls[k], s.calls[j]);
    }
  }

  lemma EventKeepsLedger(s: System, i: nat, event: Event, s': System)
    requires Inv(s) && i < |s.calls| && Between(s.calls[i], s.calls[i].queue, s.calls[i].unit)
    requires IsUnitEvent(event, s.calls[i].queue, s.calls[i].unit)
    requires s'.events == s.events + [event] && s'.handed == s.handed && s'.prepared == s.prepared
    ensures LedgerInv(s')
  {
    assert Standing(s, s.calls[i]);
    forall j, k | 0 <= j < k < |s'.events| ensures !SameIntent(s'.events[j], s'.events[k]) {
      if k == |s.events| {
        assert !IsUnitEvent(s.events[j], s.calls[i].queue, s.calls[i].unit);
      }
    }
  }

  lemma HandKeepsInv(s: System, i: nat, s': System)
    requires Inv(s) && s' == Apply(s, Hand(i))
    ensures Inv(s')
  {
    if s' != s {
      assert Standing(s, s.calls[i]);
      forall j | 0 <= j < |s'.calls| ensures Standing(s', s'.calls[j]) {
        assert Standing(s, s.calls[j]) && (j != i ==> Apart(s.calls[i], s.calls[j]));
      }
      forall j, k | 0 <= j < |s'.calls| && 0 <= k < |s'.calls| && j != k ensures Apart(s'.calls[j], s'.calls[k]) {
        assert Apart(s.calls[j], s.calls[k]);
      }
    }
  }

  lemma ComposeKeepsInv(s: System, i: nat, s': System)
    requires Inv(s) && (s' == Apply(s, Compose(i)) || s' == Apply(s, Die(i)))
    ensures Inv(s')
  {
    if s' != s {
      forall j | 0 <= j < |s'.calls| ensures Standing(s', s'.calls[j]) {
        assert Standing(s, s.calls[j]);
      }
      forall j, k | 0 <= j < |s'.calls| && 0 <= k < |s'.calls| && j != k ensures Apart(s'.calls[j], s'.calls[k]) {
        assert Apart(s.calls[j], s.calls[k]) && Standing(s, s.calls[j]) && Standing(s, s.calls[k]);
      }
    }
  }

  lemma MoveKeepsInv(s: System, move: Move, s': System)
    requires Inv(s) && s' == Apply(s, move) && !Overlaps(s, move)
    ensures Inv(s')
  {
    match move
    case Check(queue, unit) => CheckKeepsInv(s, queue, unit, s');
    case Refuse(i) =>
      if s' != s {
        EventKeepsInv(s, i, Outcome(s.calls[i].queue, s.calls[i].unit, None, NotCompiled, false), Gone, s');
      }
    case RecordIntent(i) =>
      if s' != s {
        var experiment := s.calls[i].stage.experiment;
        EventKeepsInv(s, i, Intent(s.calls[i].queue, s.calls[i].unit, experiment), Recorded(experiment), s');
      }
    case Hand(i) => HandKeepsInv(s, i, s');
    case _ => ComposeKeepsInv(s, move.i, s');
  }

  lemma {:induction false} RunKeepsInv(moves: seq<Move>)
    requires NoOverlap(EMPTY, moves)
    ensures Inv(Run(EMPTY, moves))
  {
    if moves != [] {
      var front := moves[..|moves| - 1];
      assert forall n :: 0 <= n <= |front| ==> front[..n] == moves[..n];
      RunKeepsInv(front);
      MoveKeepsInv(Run(EMPTY, front), moves[|moves| - 1], Run(EMPTY, moves));
    }
  }

  // ------------------------------------------------------------------ overlapping calls

  predicate NoChecks(moves: seq<Move>) {
    forall n :: 0 <= n < |moves| ==> !moves[n].Check?
  }

  lemma {:induction false} RunJoins(s: System, moves: seq<Move>, more: seq<Move>)
    ensures Run(s, moves + more) == Run(Run(s, moves), more)
  {
    if more == [] {
      assert moves + more == moves;
    } else {
      RunJoins(s, moves, more[..|more| - 1]);
      assert (moves + more)[..|moves + more| - 1] == moves + more[..|more| - 1];
    }
  }

  /** Call `i` goes on to hand its unit to execution, without a look at anybody else. */
  lemma GoesOn(s: System, i: nat) returns (moves: seq<Move>)
    requires i < |s.calls| && (s.calls[i].stage.Checked? || s.calls[i].stage.Prepared?)
    ensures NoChecks(moves) && |Run(s, moves).calls| == |s.calls|
    ensures forall j :: 0 <= j < |s.calls| && j != i ==> Run(s, moves).calls[j] == s.calls[j]
    ensures
      var handed := Run(s, moves).handed;
      && |handed| == |s.handed| + 1 && s.handed <= handed
      && handed[|s.handed|].queue == s.calls[i].queue && handed[|s.handed|].unit == s.calls[i].unit
  {
    var composed := if s.calls[i].stage.Checked? then Apply(s, Compose(i)) else s;
    var recorded := Apply(composed, RecordIntent(i));
    var handed := Apply(recorded, Hand(i));
    var last := [RecordIntent(i), Hand(i)];
    assert last[..1] == [RecordIntent(i)] && [RecordIntent(i)][..0] == [];
    assert Run(composed, []) == composed && Run(composed, [RecordIntent(i)]) == recorded && Run(composed, last) == handed;
    assert handed.handed[|s.handed|].queue == s.calls[i].queue;
    if s.calls[i].stage.Checked? {
      moves := [Compose(i)] + last;
      assert [Compose(i)][..0] == [] && Run(s, []) == s && Run(s, [Compose(i)]) == composed;
      RunJoins(s, [Compose(i)], last);
    } else {
      moves := last;
    }
  }

  /** Two live calls of one unit between check and intent can both be handed on. */
  lemma OverlapHandsTwice(s: System, i: nat, j: nat, queue: Queue, unit: Unit) returns (moves: seq<Move>)
    requires i < |s.calls| && j < |s.calls| && i != j && Between(s.calls[i], queue, unit) && Between(s.calls[j], queue, unit)
    ensures NoChecks(moves) && !UnitsHandedOnce(Run(s, moves).handed)
  {
    var first := GoesOn(s, i);
    var middle := Run(s, first);
    var second := GoesOn(middle, j);
    moves := first + second;
    RunJoins(s, first, second);
    var handed := Run(s, moves).handed;
    assert handed[|s.handed|].unit == unit && handed[|s.handed| + 1].unit == unit;
  }

  /** Two calls of one unit that check the empty ledger one after the other both hand the unit to execution. */
  lemma OverlappingChecksHandTwice(queue: Queue, unit: Unit) returns (moves: seq<Move>)
    ensures NoChecks(moves) && !UnitsHandedOnce(Run(EMPTY, [Check(queue, unit), Check(queue, unit)] + moves).handed)
  {
    var checks := [Check(queue, unit), Check(queue, unit)];
    assert checks[..1] == [Check(queue, unit)] && [Check(queue, unit)][..0] == [];
    assert Run(EMPTY, []) == EMPTY;
    var one := Run(EMPTY, [Check(queue, unit)]);
    assert one == Apply(EMPTY, Check(queue, unit)) == EMPTY.(calls := [Running(queue, unit, Checked)]);
    var s := Run(EMPTY, checks);
    assert s == Apply(one, Check(queue, unit));
    assert s.calls == [Running(queue, unit, Checked), Running(queue, unit, Checked)];
    moves := OverlapHandsTwice(s, 0, 1, queue, unit);
    RunJoins(EMPTY, checks, moves);
  }

  /** However the calls made so far go on, each unit is handed to execution at most once. */
  ghost predicate Safe(moves: seq<Move>) {
    forall n, more :: 0 <= n <= |moves| && NoChecks(more) ==> UnitsHandedOnce(Run(Run(EMPTY, moves[..n]), more).handed)
  }

  lemma NoCheckNoOverlap(moves: seq<Move>, n: nat, more: seq<Move>)
    requires n <= |moves| && NoOverlap(EMPTY, moves) && NoChecks(more)
    ensures NoOverlap(EMPTY, moves[..n] + more)
  {
    var all := moves[..n] + more;
    forall k | 0 <= k < |all| ensures !Overlaps(Run(EMPTY, all[..k]), all[k]) {
      if k < n {
        assert all[..k] == moves[..k];
      }
    }
  }

  /**
    With overlapping calls, crashes and refusals: each unit is handed to execution at most once, however the calls go on,
    if and only if no call checks the ledger while another call of its unit is between its own check and its intent.
   */
  lemma {:induction false} HandedOnceExactlyWithoutOverlap(moves: seq<Move>)
    ensures Safe(moves) <==> NoOverlap(EMPTY, moves)
  {
    if NoOverlap(EMPTY, moves) {
      forall n, more | 0 <= n <= |moves| && NoChecks(more)
        ensures UnitsHandedOnce(Run(Run(EMPTY, moves[..n]), more).handed)
      {
        NoCheckNoOverlap(moves, n, more);
        RunKeepsInv(moves[..n] + more);
        RunJoins(EMPTY, moves[..n], more);
        IntentsDecideHanding(Run(EMPTY, moves[..n] + more));
      }
    }
    if Safe(moves) {
      forall n | 0 <= n < |moves| ensures !Overlaps(Run(EMPTY, moves[..n]), moves[n]) {
        var s := Run(EMPTY, moves[..n]);
        if Overlaps(s, moves[n]) {
          assert moves[..n + 1][..n] == moves[..n];
          var i :| 0 <= i < |s.calls| && Between(s.calls[i], moves[n].queue, moves[n].unit);
          var more := OverlapHandsTwice(Run(EMPTY, moves[..n + 1]), i, |s.calls|, moves[n].queue, moves[n].unit);
        }
      }
    }
  }

  /** A call nobody comes between makes these moves: the events, experiments and hand-over are those of the whole call. */
  lemma UninterruptedCallMoves(s: State, call: Call, unit: Unit, o: System)
    requires Approves(s, call) && s.items[call.queue].family != Whole && Names(call, s.items[call.queue].family, Some(unit))
    requires o.events == s.events && o.prepared == s.prepared
    ensures
      var i, queue := |o.calls|, call.queue;
      var checked := Apply(o, Check(queue, unit));
      var handed := Apply(Apply(Apply(checked, Compose(i)), RecordIntent(i)), Hand(i));
      var sent := Execute(s, call.(compiles := true, crash := DuringExecution)).state;
      && handed.events == sent.events && handed.prepared == sent.prepared
      && handed.handed == o.handed + (if sent.sent == s.sent then [] else [Handed(queue, unit, s.prepared)])
      && Apply(checked, Refuse(i)).events == Execute(s, call.(compiles := false)).state.events
  {
  }
}
