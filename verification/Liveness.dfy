/**
  The heartbeat on the orchestration row itself, in runs with everybody else at work: what the row's expiry is, and that a
  supervised process keeps its lease.
 */
module Liveness {
  import opened Wrappers
  import opened Runs
  import opened Fencing
  import opened FencedCalls
  import opened EndStates
  import opened Boundaries
  import S = Supervisor
  import O = Orchestration

  type Time = O.Time

  // ------------------------------------------------------------------ what the expiry is

  function Expiry(row: Option<Row>): Option<Time> {
    if row.Some? then row.value.expiresAt else None
  }

  predicate Renews(s: State, i: nat, ttl: Time) {
    Doing(s, i, Idle) && s.agents[i].lease.Some?
    && O.RenewRow(s.row, s.agents[i].lease.value.owner, s.agents[i].lease.value.epoch, ttl, s.now).accepted
  }

  predicate Releases(s: State, i: nat) {
    Doing(s, i, Idle) && s.agents[i].lease.Some?
    && O.ReleaseRow(s.row, s.agents[i].lease.value.owner, s.agents[i].lease.value.epoch).accepted
  }

  function GrantedBy(s: State, step: Step, earlier: Option<Time>): Option<Time> {
    match step
    case Acquire(owner, ttl) =>
      if O.AcquireRow(s.row, owner, ttl, s.now).outcome.Acquired? then Some(s.now + ttl) else earlier
    case Renew(i, ttl) => if Renews(s, i, ttl) then Some(s.now + ttl) else earlier
    case Release(i) => if Releases(s, i) then None else earlier
    case _ => earlier
  }

  /** What the last accepted acquisition or renewal granted, unless the lease was released since. */
  function Granted(s: State, steps: seq<Step>): Option<Time> {
    if steps == [] then Expiry(s.row)
    else GrantedBy(Run(s, steps[..|steps| - 1]), steps[|steps| - 1], Granted(s, steps[..|steps| - 1]))
  }

  /** A save is accepted although its record has another expiry than the row. */
  predicate OtherExpiry(s: State, step: Step) {
    var write := RowWrite(s, step);
    && write.Some? && s.row.Some?
    && O.SaveRow(s.row, write.value.0, write.value.1, s.now).outcome.Saved?
    && write.value.0.expiresAt != s.row.value.expiresAt
  }

  predicate NoOtherExpiry(s: State, steps: seq<Step>) {
    forall n :: 0 <= n < |steps| ==> !OtherExpiry(Run(s, steps[..n]), steps[n])
  }

  ghost predicate ExpiryIsGranted(s: State, steps: seq<Step>) {
    forall n :: 0 <= n <= |steps| ==> Expiry(Run(s, steps[..n]).row) == Granted(s, steps[..n])
  }

  /** A step that writes a record leaves that record or the old row; other steps grant, release or leave the expiry. */
  lemma RowAfter(s: State, step: Step, s': State)
    requires s' == Apply(s, step)
    ensures
      var write := RowWrite(s, step);
      if write.Some? && s.row.Some? && O.SaveRow(s.row, write.value.0, write.value.1, s.now).outcome.Saved?
      then s'.row == Some(write.value.0)
      else step.Start? || step.Acquire? || step.Renew? || step.Release? || s'.row == s.row
  {
  }

  lemma GrantAfter(s: State, step: Step, s': State, granted: Option<Time>)
    requires s' == Apply(s, step) && Expiry(s.row) == granted
    ensures Expiry(s'.row) == GrantedBy(s, step, granted) <==> !OtherExpiry(s, step)
  {
    match step
    case Acquire(owner, ttl) =>
    case Renew(i, ttl) =>
    case Release(i) =>
    case Start(_) =>
    case _ => SaveAfter(s, step, s', granted);
  }

  lemma SaveAfter(s: State, step: Step, s': State, granted: Option<Time>)
    requires s' == Apply(s, step) && Expiry(s.row) == granted
    requires !step.Acquire? && !step.Renew? && !step.Release? && !step.Start?
    ensures Expiry(s'.row) == granted <==> !OtherExpiry(s, step)
  {
    RowAfter(s, step, s');
  }

  lemma GrantNext(s: State, steps: seq<Step>)
    requires steps != [] && Expiry(Run(s, steps[..|steps| - 1]).row) == Granted(s, steps[..|steps| - 1])
    ensures Expiry(Run(s, steps).row) == Granted(s, steps)
            <==> !OtherExpiry(Run(s, steps[..|steps| - 1]), steps[|steps| - 1])
  {
    var before, step := Run(s, steps[..|steps| - 1]), steps[|steps| - 1];
    GrantAfter(before, step, Run(s, steps), Granted(s, steps[..|steps| - 1]));
  }

  lemma {:induction false} UnwrittenExpiryIsGranted(s: State, steps: seq<Step>)
    requires NoOtherExpiry(s, steps)
    ensures Expiry(Run(s, steps).row) == Granted(s, steps)
  {
    if steps != [] {
      var front := steps[..|steps| - 1];
      assert forall k :: 0 <= k <= |front| ==> front[..k] == steps[..k];
      UnwrittenExpiryIsGranted(s, front);
      GrantNext(s, steps);
    }
  }

  lemma GrantedMeansUnwritten(s: State, steps: seq<Step>, n: nat)
    requires ExpiryIsGranted(s, steps) && n < |steps|
    ensures !OtherExpiry(Run(s, steps[..n]), steps[n])
  {
    var prefix := steps[..n + 1];
    assert prefix[..n] == steps[..n];
    assert Expiry(Run(s, steps[..n]).row) == Granted(s, steps[..n]);
    assert Expiry(Run(s, prefix).row) == Granted(s, prefix);
    GrantNext(s, prefix);
  }

  /**
    In every run, from any state: the row's expiry is throughout what the last accepted acquisition or renewal granted
    (none after a release) if and only if no save is accepted whose record has another expiry than the row.
   */
  lemma {:induction false} ExpiryIsGrantedExactly(s: State, steps: seq<Step>)
    ensures ExpiryIsGranted(s, steps) <==> NoOtherExpiry(s, steps)
  {
    if NoOtherExpiry(s, steps) {
      forall n | 0 <= n <= |steps| ensures Expiry(Run(s, steps[..n]).row) == Granted(s, steps[..n]) {
        var prefix := steps[..n];
        assert forall k :: 0 <= k <= n ==> prefix[..k] == steps[..k];
        UnwrittenExpiryIsGranted(s, prefix);
      }
    }
    if ExpiryIsGranted(s, steps) {
      forall n | 0 <= n < |steps| ensures !OtherExpiry(Run(s, steps[..n]), steps[n]) {
        GrantedMeansUnwritten(s, steps, n);
      }
    }
  }

  // ------------------------------------------------------------------ a supervised process in a run

  /** A step of the run by anybody, or a tick of the supervisor of one process. */
  datatype Move = Other(step: Step) | Tick(times: S.TickTimes)

  /** The run's state with what the supervisor remembers: when it noted its last renewal, and when it last ticked. */
  datatype Watched = Watched(s: State, lastRenewed: Time, lastTick: Time)

  predicate Due(w: Watched, config: S.Config, times: S.TickTimes) {
    times.start - w.lastRenewed >= config.heartbeat
  }

  /** A due tick renews in the store; the supervisor notes it when the renewal was accepted. */
  function Do(w: Watched, i: nat, config: S.Config, move: Move): Watched {
    match move
    case Other(step) => w.(s := Apply(w.s, step))
    case Tick(times) =>
      if !Due(w, config, times) then w.(lastTick := times.start)
      else
        Watched(Apply(w.s, Renew(i, config.ttl)),
                if Renews(w.s, i, config.ttl) then times.noted else w.lastRenewed, times.start)
  }

  function Watch(w: Watched, i: nat, config: S.Config, moves: seq<Move>): Watched {
    if moves == [] then w else Do(Watch(w, i, config, moves[..|moves| - 1]), i, config, moves[|moves| - 1])
  }

  /** The supervisor's own tick function renews under the same condition, with the same effect on the row. */
  lemma WatchedTickIsSupervisors(w: Watched, i: nat, config: S.Config, times: S.TickTimes, v: S.Supervision)
    requires Doing(w.s, i, Idle) && config.lease.Some? && w.s.agents[i].lease == config.lease
    requires !v.leaseLost && v.lastRenewed == w.lastRenewed && times.executed == w.s.now
    ensures
      var after := Do(w, i, config, Tick(times));
      && S.Due(v, config, times.start) == Due(w, config, times)
      && (Due(w, config, times) ==>
            O.RenewRow(w.s.row, config.lease.value.owner, config.lease.value.epoch, config.ttl, times.executed)
            == O.RenewResult(after.s.row, Renews(w.s, i, config.ttl)))
      && (!Due(w, config, times) ==> after.s == w.s)
  {
  }

  // ------------------------------------------------------------------ the schedule

  predicate SameLease(a: Row, b: Row) {
    a.owner == b.owner && a.epoch == b.epoch && a.expiresAt == b.expiresAt
  }

  /** An unfenced save is accepted whose record has other lease columns than the row. */
  predicate OldLease(s: State, step: Step) {
    var write := PlainWrite(s, step);
    && write.Some? && s.row.Some?
    && O.SaveRow(s.row, write.value.0, write.value.1, s.now).outcome.Saved?
    && !SameLease(write.value.0, s.row.value)
  }

  /** Renewals, release and crash of process `i` are its supervisor's; its owner acquires the run once. */
  predicate OthersStep(step: Step, i: nat, lease: Lease) {
    match step
    case Renew(j, _) => j != i
    case Release(j) => j != i
    case Crash(j) => j != i
    case Acquire(owner, _) => owner != lease.owner
    case _ => true
  }

  /** A tick comes at most `gap` after the one before, and does its work within `latency`, between two steps of its process. */
  predicate PunctualTick(w: Watched, i: nat, config: S.Config, times: S.TickTimes, gap: Time, latency: Time) {
    && w.lastTick <= times.start <= w.lastTick + gap
    && times.start <= times.executed <= times.noted <= times.start + latency
    && times.executed == w.s.now
    && (Due(w, config, times) ==> Doing(w.s, i, Idle))
  }

  predicate Disciplined(w: Watched, i: nat, config: S.Config, move: Move, gap: Time, latency: Time) {
    config.lease.Some?
    && match move
       case Other(step) => OthersStep(step, i, config.lease.value)
       case Tick(times) => PunctualTick(w, i, config, times, gap, latency)
  }

  /** The next tick is not overdue. */
  predicate OnTime(w: Watched, gap: Time, latency: Time) {
    w.s.now <= w.lastTick + gap + latency
  }

  ghost predicate Supervised(w: Watched, i: nat, config: S.Config, moves: seq<Move>, gap: Time, latency: Time) {
    && (forall n :: 0 <= n < |moves| ==> Disciplined(Watch(w, i, config, moves[..n]), i, config, moves[n], gap, latency))
    && (forall n :: 0 <= n <= |moves| ==> OnTime(Watch(w, i, config, moves[..n]), gap, latency))
  }

  ghost predicate NoOldLease(w: Watched, i: nat, config: S.Config, moves: seq<Move>) {
    forall n :: 0 <= n < |moves| && moves[n].Other? ==> !OldLease(Watch(w, i, config, moves[..n]).s, moves[n].step)
  }

  // ------------------------------------------------------------------ what holds on the way

  /** Process `i` alone has the lease, and what it remembers while at work carries the row's lease columns. */
  ghost predicate SoleHolder(s: State, i: nat, lease: Lease) {
    && i < |s.agents| && s.agents[i].alive && s.agents[i].lease == Some(lease)
    && s.row.Some? && O.HeldBy(s.row.value, lease.owner, lease.epoch)
    && (forall j :: 0 <= j < |s.agents| && j != i ==> s.agents[j].lease != Some(lease))
    && (!s.agents[i].doing.Idle? && s.agents[i].current.Some? ==> SameLease(s.agents[i].current.value, s.row.value))
  }

  /** The renewal noted last is not older than the row's expiry says, and the last tick came within a heartbeat of it. */
  predicate Fresh(w: Watched, config: S.Config, latency: Time) {
    && Expiry(w.s.row).Some?
    && w.lastRenewed <= Expiry(w.s.row).value - config.ttl + latency
    && w.lastTick < w.lastRenewed + config.heartbeat
  }

  ghost predicate Kept(w: Watched, i: nat, config: S.Config, latency: Time) {
    config.lease.Some? && (Ended(w.s.row) || (SoleHolder(w.s, i, config.lease.value) && Fresh(w, config, latency)))
  }

  /** The lease has not run out. */
  predicate Unexpired(s: State) {
    Expiry(s.row).Some? && s.now <= Expiry(s.row).value
  }

  lemma FreshIsUnexpired(w: Watched, config: S.Config, gap: Time, latency: Time)
    requires Fresh(w, config, latency) && OnTime(w, gap, latency)
    requires config.heartbeat + gap + 2.0 * latency <= config.ttl
    ensures Unexpired(w.s)
  {
  }

  // ------------------------------------------------------------------ other steps leave the lease alone

  /** Nobody else can acquire, renew or release. */
  lemma LeaseStepsRefused(s: State, step: Step, i: nat, lease: Lease)
    requires SoleHolder(s, i, lease) && Unexpired(s) && OthersStep(step, i, lease)
    requires step.Acquire? || step.Renew? || step.Release? || step.Start?
    ensures Apply(s, step) == s
  {
    match step
    case Renew(j, _) => assert j < |s.agents| ==> s.agents[j].lease != Some(lease);
    case Release(j) => assert j < |s.agents| ==> s.agents[j].lease != Some(lease);
    case _ =>
  }

  /** A save that is accepted carries the row's lease columns. */
  lemma SavesCarryLease(s: State, step: Step, i: nat, lease: Lease)
    requires SoleHolder(s, i, lease) && !OldLease(s, step) && WritesRecord(step)
    ensures
      var write := RowWrite(s, step);
      write.Some? && O.SaveRow(s.row, write.value.0, write.value.1, s.now).outcome.Saved? ==>
        SameLease(write.value.0, s.row.value)
  {
    if !step.OperatorWrites? && step.i < |s.agents| && step.i != i {
      assert s.agents[step.i].lease != Some(lease);
    }
  }

  lemma RowKeepsLease(s: State, step: Step, s': State, i: nat, lease: Lease)
    requires SoleHolder(s, i, lease) && Unexpired(s) && OthersStep(step, i, lease) && !OldLease(s, step)
    requires s' == Apply(s, step)
    ensures s'.row.Some? && SameLease(s'.row.value, s.row.value)
  {
    RowAfter(s, step, s');
    if step.Acquire? || step.Renew? || step.Release? || step.Start? {
      LeaseStepsRefused(s, step, i, lease);
    } else if WritesRecord(step) {
      SavesCarryLease(s, step, i, lease);
    }
  }

  /** What a process at work remembers is what it did, the row it read, or the record it saved. */
  lemma CurrentMoves(s: State, step: Step, s': State, i: nat)
    requires s' == Apply(s, step) && i < |s.agents| <= |s'.agents|
    ensures !s'.agents[i].doing.Idle? && s'.agents[i].current.Some? ==>
              || (s'.agents[i].current == s.agents[i].current && !s.agents[i].doing.Idle?)
              || s'.agents[i].current == s.row || s'.agents[i].current == s'.row
  {
    if WritesRecord(step) {
      WritersRemember(s, step, s', i);
    } else {
      ReadersRemember(s, step, s', i);
    }
  }

  lemma WritersRemember(s: State, step: Step, s': State, i: nat)
    requires s' == Apply(s, step) && i < |s.agents| <= |s'.agents| && WritesRecord(step)
    ensures !s'.agents[i].doing.Idle? && s'.agents[i].current.Some? ==>
              || (s'.agents[i].current == s.agents[i].current && !s.agents[i].doing.Idle?)
              || s'.agents[i].current == s.row || s'.agents[i].current == s'.row
  {
  }

  lemma ReadersRemember(s: State, step: Step, s': State, i: nat)
    requires s' == Apply(s, step) && i < |s.agents| <= |s'.agents| && !WritesRecord(step)
    ensures !s'.agents[i].doing.Idle? && s'.agents[i].current.Some? ==>
              || (s'.agents[i].current == s.agents[i].current && !s.agents[i].doing.Idle?)
              || s'.agents[i].current == s.row
  {
  }

  lemma ProcessStaysSole(s: State, step: Step, s': State, i: nat, lease: Lease)
    requires SoleHolder(s, i, lease) && Unexpired(s) && OthersStep(step, i, lease) && s' == Apply(s, step)
    ensures |s.agents| <= |s'.agents| && s'.agents[i].alive && s'.agents[i].lease == Some(lease)
    ensures forall j :: 0 <= j < |s'.agents| && j != i ==> s'.agents[j].lease != Some(lease)
  {
    if step.Acquire? {
      LeaseStepsRefused(s, step, i, lease);
    } else {
      NobodyElseAppears(s, step, s');
      StaysAlive(s, step, s', i);
      forall j | 0 <= j < |s'.agents| && j != i ensures s'.agents[j].lease != Some(lease) {
        if j < |s.agents| {
          LeaseNeverChanges(s, step, s', j);
        }
      }
      LeaseNeverChanges(s, step, s', i);
    }
  }

  lemma NobodyElseAppears(s: State, step: Step, s': State)
    requires s' == Apply(s, step) && !step.Acquire?
    ensures |s.agents| <= |s'.agents|
    ensures forall j :: |s.agents| <= j < |s'.agents| ==> s'.agents[j].lease.None?
  {
  }

  lemma StaysAlive(s: State, step: Step, s': State, i: nat)
    requires s' == Apply(s, step) && i < |s.agents| <= |s'.agents| && !(step.Crash? && step.i == i)
    ensures s'.agents[i].alive == s.agents[i].alive
  {
  }

  lemma OtherKeepsHolder(s: State, step: Step, s': State, i: nat, lease: Lease)
    requires SoleHolder(s, i, lease) && Unexpired(s) && OthersStep(step, i, lease) && !OldLease(s, step)
    requires s' == Apply(s, step)
    ensures SoleHolder(s', i, lease) && Expiry(s'.row) == Expiry(s.row)
  {
    RowKeepsLease(s, step, s', i, lease);
    ProcessStaysSole(s, step, s', i, lease);
    CurrentMoves(s, step, s', i);
  }

  lemma RenewalKeepsHolder(s: State, i: nat, lease: Lease, ttl: Time, s': State)
    requires SoleHolder(s, i, lease) && !Ended(s.row) && s.agents[i].doing.Idle? && s' == Apply(s, Renew(i, ttl))
    ensures Renews(s, i, ttl) && SoleHolder(s', i, lease) && Expiry(s'.row) == Some(s.now + ttl)
  {
  }

  lemma MoveKeeps(w: Watched, i: nat, config: S.Config, move: Move, gap: Time, latency: Time)
    requires S.ValidConfig(config) && config.heartbeat + gap + 2.0 * latency <= config.ttl
    requires Kept(w, i, config, latency) && OnTime(w, gap, latency) && Disciplined(w, i, config, move, gap, latency)
    requires move.Other? ==> !OldLease(w.s, move.step)
    ensures Kept(Do(w, i, config, move), i, config, latency)
  {
    var lease := config.lease.value;
    var w' := Do(w, i, config, move);
    if Ended(w.s.row) {
      EndedStays(w, i, config, move);
    } else {
      FreshIsUnexpired(w, config, gap, latency);
      match move
      case Other(step) => OtherKeepsHolder(w.s, step, w'.s, i, lease);
      case Tick(times) =>
        if Due(w, config, times) {
          RenewalKeepsHolder(w.s, i, lease, config.ttl, w'.s);
        }
    }
  }

  lemma EndedStays(w: Watched, i: nat, config: S.Config, move: Move)
    requires Ended(w.s.row)
    ensures Ended(Do(w, i, config, move).s.row)
  {
    match move
    case Other(step) => StepKeepsEndState(w.s, step, Apply(w.s, step));
    case Tick(_) => StepKeepsEndState(w.s, Renew(i, config.ttl), Apply(w.s, Renew(i, config.ttl)));
  }

  lemma {:induction false} WatchKeeps(w: Watched, i: nat, config: S.Config, moves: seq<Move>, gap: Time, latency: Time)
    requires S.ValidConfig(config) && config.heartbeat + gap + 2.0 * latency <= config.ttl
    requires Kept(w, i, config, latency)
    requires Supervised(w, i, config, moves, gap, latency) && NoOldLease(w, i, config, moves)
    ensures Kept(Watch(w, i, config, moves), i, config, latency)
  {
    if moves != [] {
      var front, n := moves[..|moves| - 1], |moves| - 1;
      assert forall k :: 0 <= k <= |front| ==> front[..k] == moves[..k];
      WatchKeeps(w, i, config, front, gap, latency);
      assert moves[..n] == front;
      MoveKeeps(Watch(w, i, config, front), i, config, moves[n], gap, latency);
    }
  }

  // ------------------------------------------------------------------ main results

  /** Process `i` just acquired the row at time `from`, and its supervisor noted that within `latency`. */
  ghost predicate JustAcquired(w: Watched, i: nat, config: S.Config, latency: Time) {
    && config.lease.Some? && SoleHolder(w.s, i, config.lease.value)
    && Expiry(w.s.row) == Some(w.lastTick + config.ttl)
    && w.lastTick <= w.lastRenewed <= w.lastTick + latency
  }

  /** The row honours the lease and has not expired, or the run has ended. */
  predicate LeaseKept(s: State, lease: Option<Lease>) {
    Ended(s.row) || (LeaseHeld(s.row, lease) && Unexpired(s))
  }

  /**
    With everybody else at work in between: while heartbeat + gap + 2 * latency <= ttl and no unfenced save is accepted that
    carries other lease columns than the row, a supervised process keeps the row's lease unexpired until the run ends.
   */
  lemma {:induction false} SupervisedLeaseIsKept(
    w: Watched, i: nat, config: S.Config, moves: seq<Move>, gap: Time, latency: Time)
    requires S.ValidConfig(config) && config.heartbeat + gap + 2.0 * latency <= config.ttl
    requires JustAcquired(w, i, config, latency)
    requires Supervised(w, i, config, moves, gap, latency) && NoOldLease(w, i, config, moves)
    ensures LeaseKept(Watch(w, i, config, moves).s, config.lease)
  {
    WatchKeeps(w, i, config, moves, gap, latency);
    var after := Watch(w, i, config, moves);
    assert moves[..|moves|] == moves;
    assert OnTime(after, gap, latency);
    if !Ended(after.s.row) {
      FreshIsUnexpired(after, config, gap, latency);
    }
  }

  // ------------------------------------------------------------------ the exact timing condition on the row

  /** However everybody else behaves, without writing other lease columns, and however the ticks fall: the lease is kept. */
  ghost predicate AlwaysKept(w: Watched, i: nat, config: S.Config, gap: Time, latency: Time) {
    forall moves :: Supervised(w, i, config, moves, gap, latency) && NoOldLease(w, i, config, moves) ==>
      LeaseKept(Watch(w, i, config, moves).s, config.lease)
  }

  lemma SupervisedExtends(w: Watched, i: nat, config: S.Config, moves: seq<Move>, move: Move, gap: Time, latency: Time)
    requires Supervised(w, i, config, moves, gap, latency) && NoOldLease(w, i, config, moves)
    requires Disciplined(Watch(w, i, config, moves), i, config, move, gap, latency)
    requires move.Other? ==> !OldLease(Watch(w, i, config, moves).s, move.step)
    requires OnTime(Do(Watch(w, i, config, moves), i, config, move), gap, latency)
    ensures Watch(w, i, config, moves + [move]) == Do(Watch(w, i, config, moves), i, config, move)
    ensures Supervised(w, i, config, moves + [move], gap, latency) && NoOldLease(w, i, config, moves + [move])
  {
    WatchExtends(w, i, config, moves, move);
    var longer := moves + [move];
    forall n | 0 <= n < |longer|
      ensures Disciplined(Watch(w, i, config, longer[..n]), i, config, longer[n], gap, latency)
      ensures longer[n].Other? ==> !OldLease(Watch(w, i, config, longer[..n]).s, longer[n].step)
    {
      assert longer[..n] == moves[..n];
      assert moves[..|moves|] == moves;
    }
    forall n | 0 <= n <= |longer| ensures OnTime(Watch(w, i, config, longer[..n]), gap, latency) {
      assert if n < |longer| then longer[..n] == moves[..n] else longer[..n] == longer;
    }
  }

  lemma WatchExtends(w: Watched, i: nat, config: S.Config, moves: seq<Move>, move: Move)
    ensures Watch(w, i, config, moves + [move]) == Do(Watch(w, i, config, moves), i, config, move)
  {
    assert (moves + [move])[..|moves|] == moves;
  }

  /** The watch after some time has passed and a tick at the end of it. */
  function Later(w: Watched, elapsed: Time): Watched {
    Watched(w.s.(now := w.s.now + elapsed), w.lastRenewed, w.lastTick + elapsed)
  }

  /** `n` ticks spaced by `step`, none of them due. */
  function EarlyMoves(from: Time, step: Time, n: nat): seq<Move> {
    if n == 0 then []
    else EarlyMoves(from, step, n - 1) + [Other(Advance(step))] + [Tick(S.At(from + S.Sum(step, n)))]
  }

  /** The moves are supervised, write no lease columns, and only let time pass and the supervisor tick. */
  ghost predicate OnlyWaits(w: Watched, i: nat, config: S.Config, moves: seq<Move>, elapsed: Time, gap: Time, latency: Time) {
    && Supervised(w, i, config, moves, gap, latency) && NoOldLease(w, i, config, moves)
    && Watch(w, i, config, moves) == Later(w, elapsed)
  }

  lemma {:induction false} EarlyMovesAreSupervised(
    w: Watched, i: nat, config: S.Config, step: Time, n: nat, gap: Time, latency: Time, moves: seq<Move>)
    requires config.lease.Some? && w.s.now == w.lastTick && 0.0 <= step <= gap && latency >= 0.0
    requires w.lastTick + S.Sum(step, n) - w.lastRenewed < config.heartbeat
    requires moves == EarlyMoves(w.lastTick, step, n)
    ensures OnlyWaits(w, i, config, moves, S.Sum(step, n), gap, latency)
    decreases n
  {
    if n == 0 {
      NoMovesAreSupervised(w, i, config, gap, latency);
    } else {
      var front, sum := EarlyMoves(w.lastTick, step, n - 1), S.Sum(step, n - 1);
      assert S.Sum(step, n) == sum + step;
      assert moves == front + [Other(Advance(step))] + [Tick(S.At(w.lastTick + (sum + step)))];
      EarlyMovesAreSupervised(w, i, config, step, n - 1, gap, latency, front);
      EarlyTick(w, i, config, front, sum, step, gap, latency);
    }
  }

  lemma NoMovesAreSupervised(w: Watched, i: nat, config: S.Config, gap: Time, latency: Time)
    requires w.s.now == w.lastTick && gap >= 0.0 && latency >= 0.0
    ensures OnlyWaits(w, i, config, [], 0.0, gap, latency)
  {
  }

  lemma Waits(w: Watched, i: nat, config: S.Config, elapsed: Time)
    requires elapsed >= 0.0
    ensures Do(w, i, config, Other(Advance(elapsed))) == w.(s := w.s.(now := w.s.now + elapsed))
    ensures !OldLease(w.s, Advance(elapsed))
  {
  }

  /** One more wait and one more early tick. */
  lemma EarlyTick(
    w: Watched, i: nat, config: S.Config, front: seq<Move>, sum: Time, step: Time, gap: Time, latency: Time)
    requires OnlyWaits(w, i, config, front, sum, gap, latency) && w.s.now == w.lastTick
    requires config.lease.Some? && 0.0 <= step <= gap && latency >= 0.0
    requires w.lastTick + (sum + step) - w.lastRenewed < config.heartbeat
    ensures OnlyWaits(w, i, config, front + [Other(Advance(step))] + [Tick(S.At(w.lastTick + (sum + step)))], sum + step, gap, latency)
  {
    var wait, tick := Other(Advance(step)), Tick(S.At(w.lastTick + (sum + step)));
    Waits(Later(w, sum), i, config, step);
    SupervisedExtends(w, i, config, front, wait, gap, latency);
    var waited := Watch(w, i, config, front + [wait]);
    assert waited == Later(w, sum).(s := Later(w, sum).s.(now := w.s.now + sum + step));
    assert Do(waited, i, config, tick) == Later(w, sum + step);
    SupervisedExtends(w, i, config, front + [wait], tick, gap, latency);
  }

  lemma LateRowExpires(w: Watched, i: nat, config: S.Config, step: Time, n: nat, gap: Time, latency: Time)
    requires JustAcquired(w, i, config, latency) && w.s.now == w.lastTick && !Ended(w.s.row)
    requires 0.0 <= step <= gap && latency >= 0.0
    requires w.lastTick + S.Sum(step, n) - w.lastRenewed < config.heartbeat && config.ttl < S.Sum(step, n) + gap + latency
    ensures !AlwaysKept(w, i, config, gap, latency)
  {
    var moves := EarlyMoves(w.lastTick, step, n);
    EarlyMovesAreSupervised(w, i, config, step, n, gap, latency, moves);
    var wait := Other(Advance(gap + latency));
    Waits(Later(w, S.Sum(step, n)), i, config, gap + latency);
    SupervisedExtends(w, i, config, moves, wait, gap, latency);
    assert !LeaseKept(Watch(w, i, config, moves + [wait]).s, config.lease);
  }

  /**
    From an acquisition noted as late as allowed, with a positive gap between ticks: every supervised run, whatever the
    others do short of writing other lease columns, keeps the row's lease unexpired until the run ends if and only if
    heartbeat + gap + 2 * latency <= ttl.
   */
  lemma {:induction false} RowKeptExactlyWhen(w: Watched, i: nat, config: S.Config, gap: Time, latency: Time)
    requires S.ValidConfig(config) && gap > 0.0 && latency >= 0.0
    requires JustAcquired(w, i, config, latency) && w.s.now == w.lastTick && !Ended(w.s.row)
    requires w.lastRenewed == w.lastTick + latency
    ensures AlwaysKept(w, i, config, gap, latency) <==> config.heartbeat + gap + 2.0 * latency <= config.ttl
  {
    if config.heartbeat + gap + 2.0 * latency <= config.ttl {
      forall moves | Supervised(w, i, config, moves, gap, latency) && NoOldLease(w, i, config, moves)
        ensures LeaseKept(Watch(w, i, config, moves).s, config.lease)
      {
        SupervisedLeaseIsKept(w, i, config, moves, gap, latency);
      }
    } else {
      var late := config.ttl - gap - latency;
      var floor := if late < 0.0 then 0.0 else late;
      var last := (floor + latency + config.heartbeat) / 2.0;
      var n := (last / gap).Floor + 1;
      var step := last / n as real;
      S.EvenSteps(last, gap, n, step);
      S.SumIsProduct(step, n);
      LateRowExpires(w, i, config, step, n, gap, latency);
    }
  }

  /** An acquisition in a run without stale writes starts such a watch. */
  lemma AcquisitionStartsWatch(s: State, owner: O.RuntimeId, config: S.Config, noted: Time, latency: Time)
    requires EpochInv(s) && s.now <= noted <= s.now + latency
    requires O.AcquireRow(s.row, owner, config.ttl, s.now).outcome.Acquired?
    requires config.lease == Some(Lease(owner, Epoch(s.row) + 1))
    ensures JustAcquired(Watched(Apply(s, Acquire(owner, config.ttl)), noted, s.now), |s.agents|, config, latency)
  {
    var s' := Apply(s, Acquire(owner, config.ttl));
    forall j | 0 <= j < |s.agents| ensures s'.agents[j].lease != config.lease {
      assert AgentBounded(s.agents[j], Epoch(s.row));
    }
  }

  // ------------------------------------------------------------------ commands at transaction boundaries

  /** Move `n`, if it is a command's save, directly follows that command's own read. */
  predicate CommandAtBoundary(w: Watched, i: nat, config: S.Config, moves: seq<Move>, n: nat)
    requires n < |moves|
  {
    moves[n].Other? && moves[n].step.OperatorWrites? ==>
      && n > 0 && moves[n - 1] == Other(OperatorReads)
      && moves[n].step.read + 1 == |Watch(w, i, config, moves[..n]).s.snapshots|
  }

  predicate CommandsAtBoundaries(w: Watched, i: nat, config: S.Config, moves: seq<Move>) {
    forall n :: 0 <= n < |moves| ==> CommandAtBoundary(w, i, config, moves, n)
  }

  predicate NoSpawns(moves: seq<Move>) {
    forall n :: 0 <= n < |moves| ==> moves[n] != Other(Spawn)
  }

  lemma CommandKeepsLease(before: State, s: State, read: nat, command: O.OperatorCommand)
    requires s == Apply(before, OperatorReads) && read + 1 == |s.snapshots|
    ensures !OldLease(s, OperatorWrites(read, command))
  {
  }

  lemma FencedKeepsLease(s: State, step: Step)
    requires AllLeased(s.agents) && !step.OperatorWrites?
    ensures !OldLease(s, step)
  {
  }

  lemma {:induction false} WatchStaysLeased(w: Watched, i: nat, config: S.Config, moves: seq<Move>)
    requires AllLeased(w.s.agents) && NoSpawns(moves)
    ensures AllLeased(Watch(w, i, config, moves).s.agents)
  {
    if moves != [] {
      var front, move := moves[..|moves| - 1], moves[|moves| - 1];
      WatchStaysLeased(w, i, config, front);
      var before := Watch(w, i, config, front);
      match move
      case Other(step) => LeasesStay(before.s, step, Apply(before.s, step));
      case Tick(_) => LeasesStay(before.s, Renew(i, config.ttl), Apply(before.s, Renew(i, config.ttl)));
    }
  }

  /** Leased processes and commands at transaction boundaries never write other lease columns. */
  lemma {:induction false} BoundariesKeepLease(w: Watched, i: nat, config: S.Config, moves: seq<Move>)
    requires AllLeased(w.s.agents) && NoSpawns(moves) && CommandsAtBoundaries(w, i, config, moves)
    ensures NoOldLease(w, i, config, moves)
  {
    forall n | 0 <= n < |moves| && moves[n].Other?
      ensures !OldLease(Watch(w, i, config, moves[..n]).s, moves[n].step)
    {
      assert CommandAtBoundary(w, i, config, moves, n);
      if moves[n].step.OperatorWrites? {
        assert moves[..n][..n - 1] == moves[..n - 1];
        CommandKeepsLease(Watch(w, i, config, moves[..n - 1]).s, Watch(w, i, config, moves[..n]).s,
                          moves[n].step.read, moves[n].step.command);
      } else {
        WatchStaysLeased(w, i, config, moves[..n]);
        FencedKeepsLease(Watch(w, i, config, moves[..n]).s, moves[n].step);
      }
    }
  }

  /** With leased processes and operator commands at transaction boundaries, no condition on writes is left. */
  lemma {:induction false} SupervisedLeaseIsKeptAtBoundaries(
    w: Watched, i: nat, config: S.Config, moves: seq<Move>, gap: Time, latency: Time)
    requires S.ValidConfig(config) && config.heartbeat + gap + 2.0 * latency <= config.ttl
    requires JustAcquired(w, i, config, latency) && Supervised(w, i, config, moves, gap, latency)
    requires AllLeased(w.s.agents) && NoSpawns(moves) && CommandsAtBoundaries(w, i, config, moves)
    ensures LeaseKept(Watch(w, i, config, moves).s, config.lease)
  {
    BoundariesKeepLease(w, i, config, moves);
    SupervisedLeaseIsKept(w, i, config, moves, gap, latency);
  }
}
