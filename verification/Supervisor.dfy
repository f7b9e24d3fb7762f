/** The supervisor thread of one run: heartbeat, stepping while the lease is believed good, and giving up for good. */
module Supervisor {
  import opened Wrappers
  import W = Whitespace
  import O = Orchestration
  import R = Runs

  type Time = O.Time
  type Row = O.Row

  /** Without a lease the supervisor ticks unfenced. */
  datatype Config = Config(lease: Option<R.Lease>, heartbeat: Time, ttl: Time)

  predicate ValidConfig(config: Config) {
    0.0 < config.heartbeat < config.ttl
  }

  /** How a call of `controller.step` ended and the row it left behind. */
  datatype StepOutcome =
    | StepReturned(row: Option<Row>, state: O.RunState)
    | StepFenced(row: Option<Row>)
    | StepTerminal(row: Option<Row>)
    | StepFailed(row: Option<Row>)

  /** `stepTimes` lists when the controller was stepped. */
  datatype Supervision = Supervision(
    leaseLost: bool,
    stopRequested: bool,
    running: bool,
    lastRenewed: Time,
    stepTimes: seq<Time>)

  datatype Supervised = Supervised(supervision: Supervision, row: Option<Row>)

  predicate Due(v: Supervision, config: Config, now: Time) {
    config.lease.Some? && now - v.lastRenewed >= config.heartbeat
  }

  function StopIfTerminal(v: Supervision, state: O.RunState): Supervision {
    if O.Terminal(state) then v.(stopRequested := true) else v
  }

  /** The part of a tick after a good heartbeat. An unreadable row or an absent one ends the thread. */
  function Proceed(v: Supervision, row: Option<Row>, now: Time, outcome: StepOutcome): Supervised {
    if row.None? then Supervised(v.(running := false), row)
    else if !O.Runnable(row.value.state) then Supervised(StopIfTerminal(v, row.value.state), row)
    else
      var stepped := v.(stepTimes := v.stepTimes + [now]);
      match outcome
      case StepReturned(after, state) => Supervised(StopIfTerminal(stepped, state), after)
      case StepFenced(after) => Supervised(stepped.(leaseLost := true, stopRequested := true), after)
      case StepTerminal(after) =>
        Supervised(if after.None? then stepped.(running := false) else StopIfTerminal(stepped, after.value.state), after)
      case StepFailed(after) => Supervised(stepped.(stopRequested := true), after)
  }

  /** One tick: `now` and `renewedAt` read the monotonic clock, `storeNow` is the time the renewal statement runs at. */
  function Tick(
    v: Supervision, row: Option<Row>, config: Config, now: Time, storeNow: Time, renewedAt: Time, outcome: StepOutcome)
    : Supervised
  {
    if v.leaseLost then Supervised(v, row)
    else if !Due(v, config, now) then Proceed(v, row, now, outcome)
    else
      var lease := config.lease.value;
      var renewal := O.RenewRow(row, lease.owner, lease.epoch, config.ttl, storeNow);
      if !renewal.accepted then Supervised(v.(leaseLost := true, stopRequested := true), renewal.row)
      else Proceed(v.(lastRenewed := renewedAt), renewal.row, now, outcome)
  }

  /** Starting clears an old stop request, but only when no thread is alive. */
  function Start(v: Supervision): Supervision {
    if v.running then v else v.(stopRequested := false, running := true)
  }

  /** The thread leaves its loop: the lease is given back unless it is known to be lost. */
  function Exit(v: Supervision, row: Option<Row>, config: Config): Supervised {
    var stopped := v.(running := false);
    if config.lease.None? || v.leaseLost then Supervised(stopped, row)
    else Supervised(stopped, O.ReleaseRow(row, config.lease.value.owner, config.lease.value.epoch).row)
  }

  /** The supervisor object over the shared orchestration row. */
  class LocalRunSupervisor {
    const config: Config
    const repository: O.OrchestrationRepository
    var leaseLost: bool
    var stopRequested: bool
    var running: bool
    var lastRenewed: Time
    var stepTimes: seq<Time>

    constructor (config: Config, repository: O.OrchestrationRepository, now: Time)
      ensures this.config == config && this.repository == repository
      ensures State() == Supervision(false, false, false, now, [])
    {
      this.config := config;
      this.repository := repository;
      leaseLost, stopRequested, running := false, false, false;
      lastRenewed, stepTimes := now, [];
    }

    function State(): Supervision
      reads this
    {
      Supervision(leaseLost, stopRequested, running, lastRenewed, stepTimes)
    }

    /** False only when a renewal was attempted and rejected. */
    method RenewLeaseIfDue(now: Time, storeNow: Time, renewedAt: Time) returns (good: bool)
      modifies this`lastRenewed, repository
      ensures !Due(old(State()), config, now) ==> good && State() == old(State()) && repository.row == old(repository.row)
      ensures Due(old(State()), config, now) ==>
                O.RenewResult(repository.row, good)
                == O.RenewRow(old(repository.row), config.lease.value.owner, config.lease.value.epoch, config.ttl, storeNow)
      ensures Due(old(State()), config, now) ==>
                State() == old(State()).(lastRenewed := if good then renewedAt else old(lastRenewed))
    {
      if config.lease.None? {
        return true;
      }
      var elapsed := now - lastRenewed;
      if elapsed < config.heartbeat {
        return true;
      }
      good := repository.RenewLease(config.lease.value.owner, config.lease.value.epoch, config.ttl, storeNow);
      if good {
        lastRenewed := renewedAt;
      }
    }

    method DoTick(now: Time, storeNow: Time, renewedAt: Time, outcome: StepOutcome)
      modifies this, repository
      ensures Supervised(State(), repository.row)
           == Tick(old(State()), old(repository.row), config, now, storeNow, renewedAt, outcome)
    {
      if leaseLost {
        return;
      }
      var good := RenewLeaseIfDue(now, storeNow, renewedAt);
      if !good {
        leaseLost := true;
        stopRequested := true;
        return;
      }
      if repository.row.None? {
        running := false;
        return;
      }
      var state := repository.row.value.state;
      if O.Runnable(state) {
        stepTimes := stepTimes + [now];
        repository.row := outcome.row;
        match outcome {
          case StepReturned(_, after) => state := after;
          case StepFenced(_) =>
            leaseLost := true;
            stopRequested := true;
            return;
          case StepTerminal(after) =>
            if after.None? {
              running := false;
              return;
            }
            state := after.value.state;
          case StepFailed(_) =>
            stopRequested := true;
            return;
        }
      }
      if O.Terminal(state) {
        stopRequested := true;
      }
    }

    method DoStart()
      modifies this
      ensures State() == Start(old(State()))
    {
      if running {
        return;
      }
      stopRequested := false;
      running := true;
    }

    method RequestStop()
      modifies this`stopRequested
      ensures State() == old(State()).(stopRequested := true)
    {
      stopRequested := true;
    }

    method ReleaseAndExit()
      modifies this`running, repository
      ensures Supervised(State(), repository.row) == Exit(old(State()), old(repository.row), config)
    {
      running := false;
      if config.lease.None? || leaseLost {
        return;
      }
      var released := repository.ReleaseLease(config.lease.value.owner, config.lease.value.epoch);
    }
  }

  /** One process's supervisors, at most one per run; its identity is the owner of every lease it acquires. */
  class LocalRunSupervisorRegistry {
    const owner: O.RuntimeId
    const heartbeat: Time
    const ttl: Time
    var supervisors: map<nat, LocalRunSupervisor>

    constructor (owner: O.RuntimeId, heartbeat: Time, ttl: Time)
      requires !W.Blank(owner) && 0.0 < heartbeat < ttl
      ensures this.owner == owner && this.heartbeat == heartbeat && this.ttl == ttl && supervisors == map[]
    {
      this.owner := owner;
      this.heartbeat := heartbeat;
      this.ttl := ttl;
      supervisors := map[];
    }

    /**
      A live supervisor is returned as it is. Otherwise a lease is acquired first, and a new supervisor carries the
      epoch of that acquisition alone; without the lease nothing starts.
     */
    method StartRun(run: nat, repository: O.OrchestrationRepository, now: Time, storeNow: Time)
      returns (supervisor: LocalRunSupervisor?)
      modifies this`supervisors, repository
      ensures run in old(supervisors) && old(supervisors[run].running) ==>
                supervisor == old(supervisors)[run] && supervisors == old(supervisors) && repository.row == old(repository.row)
      ensures !(run in old(supervisors) && old(supervisors[run].running)) ==>
                var acquired := O.AcquireRow(old(repository.row), owner, ttl, storeNow);
                && repository.row == acquired.row
                && (acquired.outcome != O.Acquired ==> supervisor == null && supervisors == old(supervisors))
                && (acquired.outcome == O.Acquired ==>
                      && supervisor != null && fresh(supervisor) && supervisors == old(supervisors)[run := supervisor]
                      && supervisor.repository == repository
                      && supervisor.config == Config(Some(R.Lease(owner, R.Epoch(old(repository.row)) + 1)), heartbeat, ttl)
                      && supervisor.State() == Supervision(false, false, true, now, []))
    {
      if run in supervisors && supervisors[run].running {
        return supervisors[run];
      }
      var outcome := repository.AcquireLease(owner, ttl, storeNow);
      if outcome != O.Acquired {
        return null;
      }
      var config := Config(Some(R.Lease(owner, repository.row.value.epoch)), heartbeat, ttl);
      var started := new LocalRunSupervisor(config, repository, now);
      started.DoStart();
      supervisors := supervisors[run := started];
      return started;
    }
  }

  // ------------------------------------------------------------------ histories of one supervisor

  /** Calls on a supervisor, in any order; `Elsewhere` is whatever other processes do to the row in between. */
  datatype Call =
    | CallStart
    | CallStop
    | CallTick(now: Time, storeNow: Time, renewedAt: Time, outcome: StepOutcome)
    | CallExit
    | Elsewhere(row: Option<Row>)

  function Do(s: Supervised, config: Config, call: Call): Supervised {
    match call
    case CallStart => s.(supervision := Start(s.supervision))
    case CallStop => s.(supervision := s.supervision.(stopRequested := true))
    case CallTick(now, storeNow, renewedAt, outcome) =>
      Tick(s.supervision, s.row, config, now, storeNow, renewedAt, outcome)
    case CallExit => Exit(s.supervision, s.row, config)
    case Elsewhere(row) => s.(row := row)
  }

  function Calls(s: Supervised, config: Config, calls: seq<Call>): Supervised {
    if calls == [] then s else Do(Calls(s, config, calls[..|calls| - 1]), config, calls[|calls| - 1])
  }

  /** Whether a call was made by the supervisor itself and touched the row. */
  predicate TouchesRow(s: Supervised, config: Config, call: Call) {
    !call.Elsewhere? && Do(s, config, call).row != s.row
  }

  /**
    Once the lease is lost, no sequence of calls, further starts included, ever steps the controller again, and
    none of them writes the row: no renewal, no release.
   */
  lemma {:induction false} LostLeaseNeverStepsAgain(s: Supervised, config: Config, calls: seq<Call>)
    requires s.supervision.leaseLost
    ensures Calls(s, config, calls).supervision.leaseLost
    ensures Calls(s, config, calls).supervision.stepTimes == s.supervision.stepTimes
    ensures forall n :: 0 <= n < |calls| ==> !TouchesRow(Calls(s, config, calls[..n]), config, calls[n])
  {
    if calls != [] {
      var front := calls[..|calls| - 1];
      LostLeaseNeverStepsAgain(s, config, front);
      forall n | 0 <= n < |calls| ensures !TouchesRow(Calls(s, config, calls[..n]), config, calls[n]) {
        if n < |front| {
          assert front[..n] == calls[..n];
        } else {
          assert calls[..n] == front;
        }
      }
    }
  }

  /**
    A leased supervisor steps the controller only in a tick whose lease was renewed in that tick or less than a
    heartbeat before; a tick whose due renewal is rejected loses the lease without stepping.
   */
  lemma {:induction false} StepsOnlyOnFreshLease(
    v: Supervision, row: Option<Row>, config: Config, now: Time, storeNow: Time, renewedAt: Time, outcome: StepOutcome)
    requires config.lease.Some?
    ensures
      var after := Tick(v, row, config, now, storeNow, renewedAt, outcome).supervision;
      var renewal := O.RenewRow(row, config.lease.value.owner, config.lease.value.epoch, config.ttl, storeNow);
      && (after.stepTimes != v.stepTimes ==>
            && !v.leaseLost && row.Some? && O.Runnable(row.value.state)
            && (now - v.lastRenewed < config.heartbeat || renewal.accepted))
      && (!v.leaseLost && Due(v, config, now) && !renewal.accepted ==>
            after.leaseLost && after.stopRequested && after.stepTimes == v.stepTimes)
  {
  }

  // ------------------------------------------------------------------ lease liveness

  /** When a tick starts, when its renewal would run in the store, and when the supervisor would note it. */
  datatype TickTimes = TickTimes(start: Time, executed: Time, noted: Time)

  datatype Heartbeat = Heartbeat(lastRenewed: Time, expiresAt: Time)

  function Beat(h: Heartbeat, config: Config, tick: TickTimes): Heartbeat {
    if tick.start - h.lastRenewed < config.heartbeat then h
    else Heartbeat(tick.noted, tick.executed + config.ttl)
  }

  function Beats(h: Heartbeat, config: Config, ticks: seq<TickTimes>): Heartbeat {
    if ticks == [] then h else Beat(Beats(h, config, ticks[..|ticks| - 1]), config, ticks[|ticks| - 1])
  }

  /** While no renewal is rejected, a tick's effect on the remembered renewal and the row's expiry is a beat. */
  lemma TickBeats(v: Supervision, row: Row, config: Config, tick: TickTimes, outcome: StepOutcome)
    requires !v.leaseLost && config.lease.Some? && !O.Terminal(row.state) && row.expiresAt.Some?
    requires O.HeldBy(row, config.lease.value.owner, config.lease.value.epoch)
    requires outcome.row == O.RenewRow(Some(row), config.lease.value.owner, config.lease.value.epoch, config.ttl, tick.executed).row
             || (!Due(v, config, tick.start) && outcome.row == Some(row))
    ensures
      var s := Tick(v, Some(row), config, tick.start, tick.executed, tick.noted, outcome);
      var beat := Beat(Heartbeat(v.lastRenewed, row.expiresAt.value), config, tick);
      && s.supervision.lastRenewed == beat.lastRenewed
      && (Due(v, config, tick.start) || outcome.row == Some(row) ==>
            s.row.Some? && s.row.value.expiresAt == Some(beat.expiresAt))
  {
  }

  /** Consecutive ticks at most `gap` apart, each renewal done within `latency` of its tick. Acquisition counts as time `from`. */
  predicate Scheduled(from: Time, ticks: seq<TickTimes>, gap: Time, latency: Time) {
    forall i :: 0 <= i < |ticks| ==> ScheduledAt(from, ticks, i, gap, latency)
  }

  predicate ScheduledAt(from: Time, ticks: seq<TickTimes>, i: nat, gap: Time, latency: Time)
    requires i < |ticks|
  {
    var before := if i == 0 then from else ticks[i - 1].start;
    && before <= ticks[i].start <= before + gap
    && ticks[i].start <= ticks[i].executed <= ticks[i].noted <= ticks[i].start + latency
  }

  /** The lease has not expired when tick `i` starts, nor when its renewal, if due, runs. */
  predicate HeldThrough(h: Heartbeat, config: Config, ticks: seq<TickTimes>, i: nat)
    requires i < |ticks|
  {
    var before := Beats(h, config, ticks[..i]);
    && ticks[i].start <= before.expiresAt
    && (ticks[i].start - before.lastRenewed >= config.heartbeat ==> ticks[i].executed <= before.expiresAt)
  }

  ghost predicate NeverExpires(h: Heartbeat, config: Config, ticks: seq<TickTimes>) {
    forall i :: 0 <= i < |ticks| ==> HeldThrough(h, config, ticks, i)
  }

  /** The supervisor was built within `latency` of the acquisition at time `from`. */
  predicate Acquired(from: Time, h: Heartbeat, config: Config, latency: Time) {
    from <= h.lastRenewed <= from + latency && h.expiresAt == from + config.ttl
  }

  lemma {:induction false} BeatsKeepUp(
    from: Time, h: Heartbeat, config: Config, ticks: seq<TickTimes>, gap: Time, latency: Time)
    requires ValidConfig(config) && Acquired(from, h, config, latency)
    requires Scheduled(from, ticks, gap, latency)
    ensures
      var after := Beats(h, config, ticks);
      && (if ticks == [] then from else ticks[|ticks| - 1].start) < after.lastRenewed + config.heartbeat
      && after.lastRenewed <= after.expiresAt - config.ttl + latency
  {
    if ticks != [] {
      var front := ticks[..|ticks| - 1];
      ScheduledFront(from, ticks, gap, latency);
      BeatsKeepUp(from, h, config, front, gap, latency);
      assert ScheduledAt(from, ticks, |ticks| - 1, gap, latency);
    }
  }

  lemma ScheduledFront(from: Time, ticks: seq<TickTimes>, gap: Time, latency: Time)
    requires ticks != [] && Scheduled(from, ticks, gap, latency)
    ensures Scheduled(from, ticks[..|ticks| - 1], gap, latency)
  {
    var front := ticks[..|ticks| - 1];
    forall i | 0 <= i < |front| ensures ScheduledAt(from, front, i, gap, latency) {
      assert ScheduledAt(from, ticks, i, gap, latency);
    }
  }

  lemma ScheduledPrefix(from: Time, ticks: seq<TickTimes>, n: nat, gap: Time, latency: Time)
    requires n <= |ticks| && Scheduled(from, ticks, gap, latency)
    ensures Scheduled(from, ticks[..n], gap, latency)
  {
    forall i | 0 <= i < n ensures ScheduledAt(from, ticks[..n], i, gap, latency) {
      assert ScheduledAt(from, ticks, i, gap, latency);
    }
  }

  /** With renewals within `latency`, heartbeat + gap + 2 * latency <= ttl keeps the lease from ever expiring. */
  lemma LeaseNeverExpires(
    from: Time, h: Heartbeat, config: Config, ticks: seq<TickTimes>, gap: Time, latency: Time)
    requires ValidConfig(config) && Acquired(from, h, config, latency) && latency >= 0.0
    requires Scheduled(from, ticks, gap, latency)
    requires config.heartbeat + gap + 2.0 * latency <= config.ttl
    ensures NeverExpires(h, config, ticks)
  {
    forall i | 0 <= i < |ticks| ensures HeldThrough(h, config, ticks, i) {
      ScheduledPrefix(from, ticks, i, gap, latency);
      BeatsKeepUp(from, h, config, ticks[..i], gap, latency);
      assert ScheduledAt(from, ticks, i, gap, latency);
    }
  }

  // ------------------------------------------------------------------ the exact timing condition

  function At(time: Time): TickTimes { TickTimes(time, time, time) }

  function Sum(step: Time, n: nat): Time {
    if n == 0 then 0.0 else Sum(step, n - 1) + step
  }

  lemma {:induction false} SumIsProduct(step: Time, n: nat)
    ensures Sum(step, n) == step * n as real
  {
    if n > 0 {
      SumIsProduct(step, n - 1);
      assert step * n as real == step * ((n - 1) as real + 1.0) == step * (n - 1) as real + step;
    }
  }

  lemma {:induction false} SumGrows(step: Time, m: nat, n: nat)
    requires 0.0 <= step && m <= n
    ensures Sum(step, m) <= Sum(step, n)
    decreases n
  {
    if m < n {
      SumGrows(step, m, n - 1);
    }
  }

  /** `n` ticks spaced by `step`, then one tick `gap` later. */
  function Late(step: Time, n: nat, gap: Time): (ticks: seq<TickTimes>)
    ensures |ticks| == n + 1
    ensures forall i :: 0 <= i < n ==> ticks[i] == At(Sum(step, i + 1))
    ensures ticks[n] == At(Sum(step, n) + gap)
  {
    seq(n, i requires 0 <= i < n => At(Sum(step, i + 1))) + [At(Sum(step, n) + gap)]
  }

  lemma LateIsScheduled(step: Time, n: nat, gap: Time)
    requires 0.0 <= step <= gap
    ensures Scheduled(0.0, Late(step, n, gap), gap, 0.0)
  {
    var ticks := Late(step, n, gap);
    forall i | 0 <= i < |ticks| ensures ScheduledAt(0.0, ticks, i, gap, 0.0) {
      assert Sum(step, 0) == 0.0 && Sum(step, i + 1) == Sum(step, i) + step;
      assert i > 0 ==> ticks[i - 1] == At(Sum(step, i));
      assert ticks[i] == if i < n then At(Sum(step, i + 1)) else At(Sum(step, i) + gap);
    }
  }

  /** Ticks that all start less than a heartbeat after the acquisition renew nothing. */
  lemma {:induction false} EarlyTicksRenewNothing(h: Heartbeat, config: Config, ticks: seq<TickTimes>)
    requires forall i :: 0 <= i < |ticks| ==> ticks[i].start - h.lastRenewed < config.heartbeat
    ensures Beats(h, config, ticks) == h
  {
    if ticks != [] {
      EarlyTicksRenewNothing(h, config, ticks[..|ticks| - 1]);
    }
  }

  ghost predicate AlwaysHeld(config: Config, gap: Time) {
    forall ticks :: Scheduled(0.0, ticks, gap, 0.0) ==> NeverExpires(Heartbeat(0.0, config.ttl), config, ticks)
  }

  lemma LateTickExpires(config: Config, gap: Time, step: Time, n: nat)
    requires ValidConfig(config) && 0.0 <= step <= gap
    requires Sum(step, n) < config.heartbeat && config.ttl < Sum(step, n) + gap
    ensures !AlwaysHeld(config, gap)
  {
    var h, ticks := Heartbeat(0.0, config.ttl), Late(step, n, gap);
    LateIsScheduled(step, n, gap);
    forall i | 0 <= i < n ensures ticks[..n][i].start < config.heartbeat {
      SumGrows(step, i + 1, n);
    }
    EarlyTicksRenewNothing(h, config, ticks[..n]);
    assert !HeldThrough(h, config, ticks, n);
  }

  /**
    With instant renewals, no schedule of ticks at most `gap` apart ever lets the lease expire if and only if
    heartbeat + gap <= ttl. The constructor's check, heartbeat < ttl, is this condition for gap = 0 only.
   */
  lemma LeaseHeldExactlyWhen(config: Config, gap: Time)
    requires ValidConfig(config) && gap >= 0.0
    ensures AlwaysHeld(config, gap) <==> config.heartbeat + gap <= config.ttl
  {
    if config.heartbeat + gap <= config.ttl {
      forall ticks | Scheduled(0.0, ticks, gap, 0.0) ensures NeverExpires(Heartbeat(0.0, config.ttl), config, ticks) {
        LeaseNeverExpires(0.0, Heartbeat(0.0, config.ttl), config, ticks, gap, 0.0);
      }
    } else {
      var slack := config.ttl - gap;
      var last := if slack < 0.0 then config.heartbeat / 2.0 else (slack + config.heartbeat) / 2.0;
      var n := (last / gap).Floor + 1;
      var step := last / n as real;
      EvenSteps(last, gap, n, step);
      SumIsProduct(step, n);
      LateTickExpires(config, gap, step, n);
    }
  }

  lemma EvenSteps(last: Time, gap: Time, n: int, step: Time)
    requires 0.0 <= last && 0.0 < gap && n == (last / gap).Floor + 1 && n > 0 && step == last / n as real
    ensures 0.0 <= step <= gap && step * n as real == last
  {
    var ratio := last / gap;
    assert ratio * gap == last && ratio < n as real;
    assert (n as real - ratio) * gap > 0.0;
    assert (step - gap) * n as real < 0.0;
  }

  // ------------------------------------------------------------------ the exact condition with slow renewals

  /** Every schedule with renewals done within `latency`, from any start noted within `latency`, keeps the lease. */
  ghost predicate AlwaysHeldWithin(config: Config, gap: Time, latency: Time) {
    forall h, ticks :: Acquired(0.0, h, config, latency) && Scheduled(0.0, ticks, gap, latency) ==> NeverExpires(h, config, ticks)
  }

  /** `n` instant ticks spaced by `step`, then one tick `gap` later whose renewal takes `latency`. */
  function Slow(step: Time, n: nat, gap: Time, latency: Time): (ticks: seq<TickTimes>)
    ensures |ticks| == n + 1
    ensures forall i :: 0 <= i < n ==> ticks[i] == At(Sum(step, i + 1))
    ensures ticks[n] == TickTimes(Sum(step, n) + gap, Sum(step, n) + gap + latency, Sum(step, n) + gap + latency)
  {
    Late(step, n, gap)[..n] + [TickTimes(Sum(step, n) + gap, Sum(step, n) + gap + latency, Sum(step, n) + gap + latency)]
  }

  lemma SlowIsScheduled(step: Time, n: nat, gap: Time, latency: Time)
    requires 0.0 <= step <= gap && latency >= 0.0
    ensures Scheduled(0.0, Slow(step, n, gap, latency), gap, latency)
  {
    var ticks := Slow(step, n, gap, latency);
    forall i | 0 <= i < |ticks| ensures ScheduledAt(0.0, ticks, i, gap, latency) {
      assert Sum(step, 0) == 0.0 && Sum(step, i + 1) == Sum(step, i) + step;
      assert i > 0 ==> ticks[i - 1] == At(Sum(step, i));
    }
  }

  /** The last early tick renews nothing, and the slow one comes too late. */
  lemma SlowTickExpires(config: Config, gap: Time, latency: Time, step: Time, n: nat)
    requires ValidConfig(config) && 0.0 <= step <= gap && latency >= 0.0
    requires Sum(step, n) < latency + config.heartbeat <= Sum(step, n) + gap
    requires config.ttl < Sum(step, n) + gap + latency
    ensures !AlwaysHeldWithin(config, gap, latency)
  {
    var h, ticks := Heartbeat(latency, config.ttl), Slow(step, n, gap, latency);
    SlowIsScheduled(step, n, gap, latency);
    forall i | 0 <= i < n ensures ticks[..n][i].start - h.lastRenewed < config.heartbeat {
      SumGrows(step, i + 1, n);
    }
    EarlyTicksRenewNothing(h, config, ticks[..n]);
    assert !HeldThrough(h, config, ticks, n);
    assert Acquired(0.0, h, config, latency) && !NeverExpires(h, config, ticks);
  }

  /**
    With a positive gap between ticks: every schedule with renewals within `latency` keeps the lease if and only if
    heartbeat + gap + 2 * latency <= ttl.
   */
  lemma LeaseHeldExactlyWithin(config: Config, gap: Time, latency: Time)
    requires ValidConfig(config) && gap > 0.0 && latency >= 0.0
    ensures AlwaysHeldWithin(config, gap, latency) <==> config.heartbeat + gap + 2.0 * latency <= config.ttl
  {
    if config.heartbeat + gap + 2.0 * latency <= config.ttl {
      forall h, ticks | Acquired(0.0, h, config, latency) && Scheduled(0.0, ticks, gap, latency)
        ensures NeverExpires(h, config, ticks)
      {
        LeaseNeverExpires(0.0, h, config, ticks, gap, latency);
      }
    } else {
      var limit := latency + config.heartbeat;
      var late := config.ttl - gap - latency;
      var low := if late < limit - gap then limit - gap else late;
      var floor := if low < 0.0 then 0.0 else low;
      var last := (floor + limit) / 2.0;
      var n := (last / gap).Floor + 1;
      var step := last / n as real;
      EvenSteps(last, gap, n, step);
      SumIsProduct(step, n);
      SlowTickExpires(config, gap, latency, step, n);
    }
  }

  // ------------------------------------------------------------------ what one call answers and leaves

  /** The tick renews first, and its renewal is rejected. */
  predicate RenewalFails(v: Supervision, row: Option<Row>, config: Config, now: Time) {
    && config.lease.Some? && now - v.lastRenewed >= config.heartbeat
    && !(row.Some? && row.value.owner == Some(config.lease.value.owner) && row.value.epoch == config.lease.value.epoch
         && row.value.state !in {O.Completed, O.BudgetExhausted, O.FailedOperational})
  }

  /** The tick reaches the controller. */
  predicate Steps(v: Supervision, row: Option<Row>, config: Config, now: Time) {
    !v.leaseLost && !RenewalFails(v, row, config, now) && row.Some? && (row.value.state.Ready? || row.value.state.Running?)
  }

  /** Each flag and the list of steps change for their own reasons only. */
  lemma {:induction false} TickAnswers(
    v: Supervision, row: Option<Row>, config: Config, now: Time, storeNow: Time, renewedAt: Time, outcome: StepOutcome)
    ensures
      var after := Tick(v, row, config, now, storeNow, renewedAt, outcome).supervision;
      var steps, lost := Steps(v, row, config, now), !v.leaseLost && RenewalFails(v, row, config, now);
      var found := !v.leaseLost && !lost && row.Some? && O.Terminal(row.value.state);
      && (after.leaseLost <==> v.leaseLost || lost || (steps && outcome.StepFenced?))
      && (after.stopRequested <==>
            || v.stopRequested || lost || found
            || (steps && match outcome
                         case StepReturned(_, state) => O.Terminal(state)
                         case StepTerminal(left) => left.Some? && O.Terminal(left.value.state)
                         case _ => true))
      && (after.running <==>
            v.running && (v.leaseLost || lost || row.Some?) && !(steps && outcome.StepTerminal? && outcome.row.None?))
      && after.stepTimes == v.stepTimes + (if steps then [now] else [])
      && after.lastRenewed == (if !v.leaseLost && !lost && config.lease.Some? && now - v.lastRenewed >= config.heartbeat
                               then renewedAt else v.lastRenewed)
  {
  }

  /** The row after a tick is the step's when there was one, and otherwise at most its lease was renewed. */
  lemma {:induction false} TickLeaves(
    v: Supervision, row: Option<Row>, config: Config, now: Time, storeNow: Time, renewedAt: Time, outcome: StepOutcome)
    ensures
      var after := Tick(v, row, config, now, storeNow, renewedAt, outcome);
      var renewed := after.supervision.lastRenewed != v.lastRenewed;
      && (Steps(v, row, config, now) ==> after.row == outcome.row)
      && (!Steps(v, row, config, now) ==>
            after.row == row || (row.Some? && after.row == Some(row.value.(expiresAt := Some(storeNow + config.ttl)))))
      && (!Steps(v, row, config, now) && renewed ==> row.Some? ==> after.row.value.expiresAt == Some(storeNow + config.ttl))
  {
  }

  /** Starting and leaving: only a stopped thread is restarted, and only a lease not known to be lost is given back. */
  lemma StartAndExitAnswer(v: Supervision, row: Option<Row>, config: Config)
    ensures
      var started, left := Start(v), Exit(v, row, config);
      && started == (if v.running then v else Supervision(v.leaseLost, false, true, v.lastRenewed, v.stepTimes))
      && left.supervision == Supervision(v.leaseLost, v.stopRequested, false, v.lastRenewed, v.stepTimes)
      && var holds := row.Some? && config.lease.Some? && row.value.owner == Some(config.lease.value.owner)
                      && row.value.epoch == config.lease.value.epoch;
         left.row == if holds && !v.leaseLost then Some(row.value.(owner := None, expiresAt := None)) else row
  {
  }
}
