/** The observer's call limiter and brief cache: cooldown, exponential backoff and a pruned sliding-window budget. */
module ObserverLimiter {
  import opened Wrappers
  import opened ObserverBrief

  type Time = real

  datatype Settings = Settings(cooldown: Time, maxBackoff: Time, budgetCalls: nat, window: Time)

  datatype Provider = Provider(name: string, model: string)

  /** What calling the provider does; `Escaping` is an exception the observer does not catch. */
  datatype Reply = Candidate(fields: Payload) | RateLimited | TimedOut | Unavailable | Malformed | Escaping

  datatype Mode = FromProvider | Deterministic

  datatype Reason = Disabled | CooldownOrBudget | RateLimitedReason | TimeoutReason | UnavailableReason | InvalidOutput

  datatype Answer = Answer(mode: Mode, reason: Option<Reason>, brief: Payload)

  /** The service's fields. A missing time is minus infinity; the digest is taken to determine the context. */
  datatype Limiter = Limiter(
    cachedFor: Option<Context>,
    cached: Option<Payload>,
    cachedReason: Option<Reason>,
    lastCallAt: Option<Time>,
    nextAllowedAt: Option<Time>,
    failureCount: nat,
    callTimes: seq<Time>)

  const FRESH: Limiter := Limiter(None, None, None, None, None, 0, [])

  // ------------------------------------------------------------------ arithmetic

  function Pow2(n: nat): (power: Time)
    ensures power >= 1.0
  {
    if n == 0 then 1.0 else 2.0 * Pow2(n - 1)
  }

  function Min(a: Time, b: Time): Time { if b < a then b else a }
  function Max(a: Time, b: Time): Time { if b > a then b else a }

  function Delay(settings: Settings, failures: nat): Time {
    Min(settings.maxBackoff, Max(settings.cooldown, Pow2(failures)))
  }

  /** The calls still inside the window, in order. */
  function Recent(times: seq<Time>, now: Time, window: Time): seq<Time> {
    if times == [] then []
    else
      var rest := Recent(times[..|times| - 1], now, window);
      if now - times[|times| - 1] < window then rest + [times[|times| - 1]] else rest
  }

  predicate Refuses(settings: Settings, l: Limiter, now: Time) {
    || (l.nextAllowedAt.Some? && now < l.nextAllowedAt.value)
    || (l.lastCallAt.Some? && now - l.lastCallAt.value < settings.cooldown)
    || |l.callTimes| >= settings.budgetCalls
  }

  // ------------------------------------------------------------------ one observation

  function SetDefault(payload: Payload, field: Field, value: Value): Payload {
    if field in payload then payload else payload[field := value]
  }

  function WithDefaults(fields: Payload, provider: Provider, generatedAt: string): Payload {
    SetDefault(
      SetDefault(
        SetDefault(SetDefault(fields, SchemaField, SchemaWord), GeneratedAt, Str(generatedAt)),
        ProviderField, Str(provider.name)),
      ModelField, Str(provider.model))
  }

  /** The failure a reply amounts to, or nothing when its brief is accepted. */
  function FailureOf(reply: Reply, context: Context, provider: Provider, generatedAt: string): Option<Reason>
    requires !reply.Escaping?
  {
    match reply
    case RateLimited => Some(RateLimitedReason)
    case TimedOut => Some(TimeoutReason)
    case Unavailable => Some(UnavailableReason)
    case Malformed => Some(InvalidOutput)
    case Candidate(fields) =>
      var brief := WithDefaults(fields, provider, generatedAt);
      if ValidBrief(brief, context) && brief[ProviderField] == Str(provider.name) && brief[ModelField] == Str(provider.model)
      then None else Some(InvalidOutput)
  }

  /** No answer: an exception went through. */
  datatype Observed = Observed(limiter: Limiter, answer: Option<Answer>, called: bool)

  function CachedMode(provider: Option<Provider>): Mode {
    if provider.Some? then FromProvider else Deterministic
  }

  function Failed(settings: Settings, l: Limiter, now: Time): Limiter {
    l.(failureCount := l.failureCount + 1, nextAllowedAt := Some(now + Delay(settings, l.failureCount + 1)))
  }

  /** After the provider answered a call made at `now`, or an exception of its went through. */
  function Conclude(
    settings: Settings, provider: Provider, calling: Limiter, context: Context, now: Time, generatedAt: string, reply: Reply)
    : Observed
  {
    if reply.Escaping? then Observed(calling, None, true)
    else
      var failure := FailureOf(reply, context, provider, generatedAt);
      if failure.Some? then
        Observed(Failed(settings, calling, now), Some(Answer(Deterministic, failure, FallbackBrief(context, generatedAt))), true)
      else
        var brief := WithDefaults(reply.fields, provider, generatedAt);
        Observed(
          calling.(failureCount := 0, nextAllowedAt := Some(now + settings.cooldown),
                   cachedFor := Some(context), cached := Some(brief), cachedReason := None),
          Some(Answer(FromProvider, None, brief)), true)
  }

  function Observe(
    settings: Settings, provider: Option<Provider>, l: Limiter, context: Context, now: Time, generatedAt: string, reply: Reply)
    : Observed
  {
    if l.cachedFor == Some(context) && l.cached.Some? then
      Observed(l, Some(Answer(CachedMode(provider), l.cachedReason, l.cached.value)), false)
    else
      var fallback := FallbackBrief(context, generatedAt);
      if provider.None? then
        Observed(l.(cachedFor := Some(context), cached := Some(fallback), cachedReason := Some(Disabled)),
                 Some(Answer(Deterministic, Some(Disabled), fallback)), false)
      else
        var pruned := l.(callTimes := Recent(l.callTimes, now, settings.window));
        if Refuses(settings, pruned, now) then
          Observed(pruned, Some(Answer(Deterministic, Some(CooldownOrBudget), fallback)), false)
        else
          var calling := pruned.(callTimes := pruned.callTimes + [now], lastCallAt := Some(now));
          Conclude(settings, provider.value, calling, context, now, generatedAt, reply)
  }

  /**
    The service object. The lock makes what follows the clock reading a single step; the clock is read before the lock is
    taken, so observations may be processed in another order than their times.
   */
  class ObserverService {
    const settings: Settings
    const provider: Option<Provider>
    var cachedFor: Option<Context>
    var cached: Option<Payload>
    var cachedReason: Option<Reason>
    var lastCallAt: Option<Time>
    var nextAllowedAt: Option<Time>
    var failureCount: nat
    var callTimes: seq<Time>

    constructor (settings: Settings, provider: Option<Provider>)
      ensures this.settings == settings && this.provider == provider && State() == FRESH
    {
      this.settings := settings;
      this.provider := provider;
      cachedFor, cached, cachedReason := None, None, None;
      lastCallAt, nextAllowedAt, failureCount, callTimes := None, None, 0, [];
    }

    function State(): Limiter
      reads this
    {
      Limiter(cachedFor, cached, cachedReason, lastCallAt, nextAllowedAt, failureCount, callTimes)
    }

    method PruneBudget(now: Time)
      modifies this`callTimes
      ensures callTimes == Recent(old(callTimes), now, settings.window)
    {
      var kept: seq<Time> := [];
      for i := 0 to |callTimes|
        invariant callTimes == old(callTimes)
        invariant kept == Recent(callTimes[..i], now, settings.window)
      {
        assert callTimes[..i + 1][..i] == callTimes[..i];
        if now - callTimes[i] < settings.window {
          kept := kept + [callTimes[i]];
        }
      }
      assert callTimes[..|callTimes|] == callTimes;
      callTimes := kept;
    }

    method Fail(context: Context, reason: Reason, now: Time, generatedAt: string) returns (answer: Answer)
      modifies this
      ensures State() == Failed(settings, old(State()), now)
      ensures answer == Answer(Deterministic, Some(reason), FallbackBrief(context, generatedAt))
    {
      failureCount := failureCount + 1;
      var delay := Min(settings.maxBackoff, Max(settings.cooldown, Pow2(failureCount)));
      nextAllowedAt := Some(now + delay);
      answer := Answer(Deterministic, Some(reason), FallbackBrief(context, generatedAt));
    }

    method Accept(context: Context, brief: Payload, now: Time) returns (answer: Answer)
      modifies this
      ensures State() == old(State()).(failureCount := 0, nextAllowedAt := Some(now + settings.cooldown),
                                       cachedFor := Some(context), cached := Some(brief), cachedReason := None)
      ensures answer == Answer(FromProvider, None, brief)
    {
      failureCount := 0;
      nextAllowedAt := Some(now + settings.cooldown);
      cachedFor, cached, cachedReason := Some(context), Some(brief), None;
      answer := Answer(FromProvider, None, brief);
    }

    method CallProvider(context: Context, now: Time, generatedAt: string, reply: Reply) returns (answer: Option<Answer>)
      requires provider.Some?
      modifies this
      ensures Observed(State(), answer, true)
           == Conclude(settings, provider.value, old(State()).(callTimes := old(callTimes) + [now], lastCallAt := Some(now)),
                       context, now, generatedAt, reply)
    {
      callTimes := callTimes + [now];
      lastCallAt := Some(now);
      var given: Answer;
      match reply {
        case Escaping => return None;
        case RateLimited => given := Fail(context, RateLimitedReason, now, generatedAt);
        case TimedOut => given := Fail(context, TimeoutReason, now, generatedAt);
        case Unavailable => given := Fail(context, UnavailableReason, now, generatedAt);
        case Malformed => given := Fail(context, InvalidOutput, now, generatedAt);
        case Candidate(fields) =>
          var brief := WithDefaults(fields, provider.value, generatedAt);
          if !ValidBrief(brief, context) {
            given := Fail(context, InvalidOutput, now, generatedAt);
          } else if brief[ProviderField] != Str(provider.value.name) || brief[ModelField] != Str(provider.value.model) {
            given := Fail(context, InvalidOutput, now, generatedAt);
          } else {
            given := Accept(context, brief, now);
          }
      }
      answer := Some(given);
    }

    method ObserveNow(context: Context, now: Time, generatedAt: string, reply: Reply)
      returns (answer: Option<Answer>, called: bool)
      modifies this
      ensures Observed(State(), answer, called)
           == Observe(settings, provider, old(State()), context, now, generatedAt, reply)
    {
      if cachedFor == Some(context) && cached.Some? {
        return Some(Answer(CachedMode(provider), cachedReason, cached.value)), false;
      }
      if provider.None? {
        var brief := FallbackBrief(context, generatedAt);
        cachedFor, cached, cachedReason := Some(context), Some(brief), Some(Disabled);
        return Some(Answer(Deterministic, Some(Disabled), brief)), false;
      }
      PruneBudget(now);
      if (nextAllowedAt.Some? && now < nextAllowedAt.value)
         || (lastCallAt.Some? && now - lastCallAt.value < settings.cooldown)
         || |callTimes| >= settings.budgetCalls
      {
        return Some(Answer(Deterministic, Some(CooldownOrBudget), FallbackBrief(context, generatedAt))), false;
      }
      called := true;
      answer := CallProvider(context, now, generatedAt, reply);
    }
  }

  // ------------------------------------------------------------------ sessions

  datatype Ask = Ask(context: Context, now: Time, generatedAt: string, reply: Reply)

  datatype Ending = Succeeded | FailedCall | Escaped

  /** A provider call: when, how it ended, and how many failures are counted since the last success. */
  datatype Call = Call(at: Time, ending: Ending, failures: nat)

  datatype Session = Session(limiter: Limiter, calls: seq<Call>)

  function CallOf(observed: Observed, now: Time): Call {
    var failures := observed.limiter.failureCount;
    Call(now, if observed.answer.None? then Escaped else if failures > 0 then FailedCall else Succeeded, failures)
  }

  function AskOne(settings: Settings, provider: Provider, session: Session, ask: Ask): Session {
    var observed := Observe(settings, Some(provider), session.limiter, ask.context, ask.now, ask.generatedAt, ask.reply);
    Session(
      observed.limiter,
      if observed.called then session.calls + [CallOf(observed, ask.now)] else session.calls)
  }

  function AskAll(settings: Settings, provider: Provider, asks: seq<Ask>): Session {
    if asks == [] then Session(FRESH, [])
    else AskOne(settings, provider, AskAll(settings, provider, asks[..|asks| - 1]), asks[|asks| - 1])
  }

  /** The bounds `from_env` enforces. */
  predicate ValidSettings(settings: Settings) {
    settings.cooldown >= 0.0 && settings.maxBackoff >= 0.0 && settings.budgetCalls >= 1 && settings.window >= 1.0
  }

  // ------------------------------------------------------------------ sliding window

  function Times(calls: seq<Call>): (times: seq<Time>)
    ensures |times| == |calls| && forall i :: 0 <= i < |calls| ==> times[i] == calls[i].at
  {
    seq(|calls|, i requires 0 <= i < |calls| => calls[i].at)
  }

  predicate Sorted(times: seq<Time>) {
    forall i, j :: 0 <= i < j < |times| ==> times[i] <= times[j]
  }

  /** The service's list is the full history without a prefix that is out of the window. */
  predicate KeptFrom(kept: seq<Time>, all: seq<Time>, from: nat, clock: Time, window: Time) {
    && from <= |all| && kept == all[from..]
    && forall i :: 0 <= i < from ==> clock - all[i] >= window
  }

  lemma {:induction false} AllPruned(times: seq<Time>, now: Time, window: Time)
    requires forall i :: 0 <= i < |times| ==> now - times[i] >= window
    ensures Recent(times, now, window) == []
  {
    if times != [] {
      AllPruned(times[..|times| - 1], now, window);
    }
  }

  lemma {:induction false} RecentIsSuffix(times: seq<Time>, now: Time, window: Time) returns (from: nat)
    requires Sorted(times)
    ensures KeptFrom(Recent(times, now, window), times, from, now, window)
    ensures forall i :: from <= i < |times| ==> now - times[i] < window
  {
    if times == [] {
      from := 0;
    } else {
      var front, last := times[..|times| - 1], times[|times| - 1];
      if now - last < window {
        from := RecentIsSuffix(front, now, window);
        assert times[from..] == front[from..] + [last];
        assert forall i :: 0 <= i < |front| ==> front[i] == times[i];
      } else {
        assert forall i :: 0 <= i < |front| ==> front[i] == times[i] <= last;
        AllPruned(front, now, window);
        from := |times|;
      }
    }
  }

  predicate WindowSpaced(times: seq<Time>, budget: nat, window: Time) {
    forall i :: 0 <= i && i + budget < |times| ==> times[i + budget] - times[i] >= window
  }

  ghost predicate WindowInv(settings: Settings, session: Session, clock: Time) {
    var times := Times(session.calls);
    && Sorted(times) && (forall i :: 0 <= i < |times| ==> times[i] <= clock)
    && WindowSpaced(times, settings.budgetCalls, settings.window)
    && exists from :: KeptFrom(session.limiter.callTimes, times, from, clock, settings.window)
  }

  /** Pruning the kept suffix of a history gives a suffix of the same history. */
  lemma PrunedIsSuffix(kept: seq<Time>, all: seq<Time>, from: nat, clock: Time, now: Time, window: Time)
    returns (from': nat)
    requires Sorted(all) && KeptFrom(kept, all, from, clock, window) && clock <= now
    ensures KeptFrom(Recent(kept, now, window), all, from', now, window)
  {
    var k := RecentIsSuffix(kept, now, window);
    from' := from + k;
    assert kept[k..] == all[from'..];
    forall i | 0 <= i < from' ensures now - all[i] >= window {
      if i >= from {
        assert all[i] == kept[i - from];
      }
    }
  }

  predicate AddsCall(calls: seq<Call>, calls': seq<Call>, now: Time) {
    |calls'| == |calls| + 1 && calls'[..|calls|] == calls && calls'[|calls|].at == now
  }

  /** What one observation does to the call list and the history. */
  lemma AskMovesCalls(settings: Settings, provider: Provider, session: Session, ask: Ask, after: Session)
    requires after == AskOne(settings, provider, session, ask)
    ensures
      var pruned := Recent(session.limiter.callTimes, ask.now, settings.window);
      || (after.calls == session.calls
          && (after.limiter.callTimes == session.limiter.callTimes || after.limiter.callTimes == pruned))
      || (|pruned| < settings.budgetCalls && after.limiter.callTimes == pruned + [ask.now]
          && AddsCall(session.calls, after.calls, ask.now))
  {
  }

  lemma AskKeepsWindow(settings: Settings, provider: Provider, session: Session, ask: Ask, clock: Time)
    requires WindowInv(settings, session, clock) && clock <= ask.now
    ensures WindowInv(settings, AskOne(settings, provider, session, ask), ask.now)
  {
    var after := AskOne(settings, provider, session, ask);
    AskMovesCalls(settings, provider, session, ask, after);
    MovedCallsKeepWindow(settings, session, after, clock, ask.now);
  }

  lemma MovedCallsKeepWindow(settings: Settings, session: Session, after: Session, clock: Time, now: Time)
    requires WindowInv(settings, session, clock) && clock <= now
    requires
      var pruned := Recent(session.limiter.callTimes, now, settings.window);
      || (after.calls == session.calls
          && (after.limiter.callTimes == session.limiter.callTimes || after.limiter.callTimes == pruned))
      || (|pruned| < settings.budgetCalls && after.limiter.callTimes == pruned + [now]
          && AddsCall(session.calls, after.calls, now))
    ensures WindowInv(settings, after, now)
  {
    var times := Times(session.calls);
    var from :| KeptFrom(session.limiter.callTimes, times, from, clock, settings.window);
    var from' := PrunedIsSuffix(session.limiter.callTimes, times, from, clock, now, settings.window);
    if after.calls != session.calls {
      CallKeepsWindow(settings, session, after, from', now);
    } else if after.limiter.callTimes == session.limiter.callTimes {
      assert KeptFrom(after.limiter.callTimes, times, from, now, settings.window);
    } else {
      assert KeptFrom(after.limiter.callTimes, times, from', now, settings.window);
    }
  }

  lemma CallKeepsWindow(settings: Settings, session: Session, after: Session, from: nat, now: Time)
    requires Sorted(Times(session.calls)) && forall i :: 0 <= i < |session.calls| ==> Times(session.calls)[i] <= now
    requires WindowSpaced(Times(session.calls), settings.budgetCalls, settings.window)
    requires from <= |session.calls| && |session.calls| - from < settings.budgetCalls
    requires forall i :: 0 <= i < from ==> now - Times(session.calls)[i] >= settings.window
    requires AddsCall(session.calls, after.calls, now)
    requires after.limiter.callTimes == Times(session.calls)[from..] + [now]
    ensures WindowInv(settings, after, now)
  {
    var times, times' := Times(session.calls), Times(after.calls);
    assert times' == times + [now] by {
      forall i | 0 <= i < |times| ensures times'[i] == times[i] {
        assert after.calls[..|session.calls|][i] == after.calls[i];
      }
    }
    assert after.limiter.callTimes == times'[from..];
    assert KeptFrom(after.limiter.callTimes, times', from, now, settings.window);
  }

  // ------------------------------------------------------------------ observations in any order

  ghost predicate AllRecent(times: seq<Time>, clock: Time, window: Time) {
    forall i :: 0 <= i < |times| ==> clock - times[i] < window
  }

  lemma {:induction false} RecentAreRecent(times: seq<Time>, now: Time, window: Time)
    ensures AllRecent(Recent(times, now, window), now, window)
  {
    if times != [] {
      RecentAreRecent(times[..|times| - 1], now, window);
    }
  }

  /** Pruning at an earlier time drops nothing that was kept at a later one. */
  lemma {:induction false} EarlierPruneKeepsAll(times: seq<Time>, clock: Time, now: Time, window: Time)
    requires AllRecent(times, clock, window) && now <= clock
    ensures Recent(times, now, window) == times
  {
    if times != [] {
      var last := times[|times| - 1];
      assert clock - last < window;
      EarlierPruneKeepsAll(times[..|times| - 1], clock, now, window);
    }
  }

  /** Any observation with an earlier time is refused a call. */
  ghost predicate RefusesBefore(settings: Settings, l: Limiter, clock: Time) {
    forall now :: now < clock ==> Refuses(settings, l, now)
  }

  ghost predicate SettledAt(settings: Settings, session: Session, clock: Time) {
    && WindowInv(settings, session, clock)
    && AllRecent(session.limiter.callTimes, clock, settings.window)
    && RefusesBefore(settings, session.limiter, clock)
  }

  /** Nothing was asked yet, or some clock separates the refused past from what may still be called. */
  ghost predicate OrderInv(settings: Settings, session: Session) {
    session == Session(FRESH, []) || exists clock :: SettledAt(settings, session, clock)
  }

  function Pruned(settings: Settings, l: Limiter, now: Time): Limiter {
    l.(callTimes := Recent(l.callTimes, now, settings.window))
  }

  /** An observation is answered from the cache, refused after pruning, or called at its own time. */
  lemma AskOutcome(settings: Settings, provider: Provider, session: Session, ask: Ask, after: Session)
    requires after == AskOne(settings, provider, session, ask)
    ensures
      var pruned := Pruned(settings, session.limiter, ask.now);
      || after == session
      || (after == Session(pruned, session.calls) && Refuses(settings, pruned, ask.now))
      || (after.limiter.lastCallAt == Some(ask.now) && after.limiter.callTimes == pruned.callTimes + [ask.now]
          && !Refuses(settings, pruned, ask.now))
  {
  }

  /** An observation overtaken by a later one is refused, and its pruning drops nothing. */
  lemma EarlyAskChangesNothing(settings: Settings, provider: Provider, session: Session, ask: Ask, clock: Time)
    requires SettledAt(settings, session, clock) && ask.now < clock
    ensures AskOne(settings, provider, session, ask) == session
  {
    EarlierPruneKeepsAll(session.limiter.callTimes, clock, ask.now, settings.window);
    assert Pruned(settings, session.limiter, ask.now) == session.limiter;
    assert Refuses(settings, session.limiter, ask.now);
  }

  lemma AskKeepsOrder(settings: Settings, provider: Provider, session: Session, ask: Ask, after: Session)
    requires ValidSettings(settings) && OrderInv(settings, session) && after == AskOne(settings, provider, session, ask)
    ensures OrderInv(settings, after)
  {
    if session == Session(FRESH, []) {
      assert KeptFrom([], Times([]), 0, ask.now, settings.window);
      if after != session {
        LaterAskSettles(settings, provider, session, ask, after, ask.now);
      }
    } else {
      var clock :| SettledAt(settings, session, clock);
      if ask.now < clock {
        EarlyAskChangesNothing(settings, provider, session, ask, clock);
      } else if after != session {
        LaterAskSettles(settings, provider, session, ask, after, clock);
      }
    }
  }

  lemma LaterAskSettles(settings: Settings, provider: Provider, session: Session, ask: Ask, after: Session, clock: Time)
    requires ValidSettings(settings) && WindowInv(settings, session, clock) && clock <= ask.now
    requires after == AskOne(settings, provider, session, ask)
    requires after != session
    ensures SettledAt(settings, after, ask.now)
  {
    AskKeepsWindow(settings, provider, session, ask, clock);
    AskOutcome(settings, provider, session, ask, after);
    RecentAreRecent(session.limiter.callTimes, ask.now, settings.window);
    RefusalsReachBack(settings, Pruned(settings, session.limiter, ask.now), ask.now);
  }

  /** What refuses a call refuses every earlier one too; so does a call just made. */
  lemma RefusalsReachBack(settings: Settings, l: Limiter, clock: Time)
    requires ValidSettings(settings)
    ensures Refuses(settings, l, clock) ==> RefusesBefore(settings, l, clock)
    ensures forall called: Limiter :: called.lastCallAt == Some(clock) ==> RefusesBefore(settings, called, clock)
  {
  }

  lemma {:induction false} SessionKeepsOrder(settings: Settings, provider: Provider, asks: seq<Ask>)
    requires ValidSettings(settings)
    ensures OrderInv(settings, AskAll(settings, provider, asks))
  {
    if asks != [] {
      var front := asks[..|asks| - 1];
      SessionKeepsOrder(settings, provider, front);
      AskKeepsOrder(settings, provider, AskAll(settings, provider, front), asks[|asks| - 1], AskAll(settings, provider, asks));
    }
  }

  /** Calls within the half-open interval of length `window` from `start`. */
  function CountIn(times: seq<Time>, start: Time, window: Time): nat {
    if times == [] then 0
    else
      var last := times[|times| - 1];
      CountIn(times[..|times| - 1], start, window) + (if start <= last < start + window then 1 else 0)
  }

  lemma {:induction false} CountIsAtMostLength(times: seq<Time>, start: Time, window: Time)
    ensures CountIn(times, start, window) <= |times|
  {
    if times != [] {
      CountIsAtMostLength(times[..|times| - 1], start, window);
    }
  }

  /** Dropping a prefix that lies before the interval does not change the count. */
  lemma {:induction false} CountSkipsEarly(times: seq<Time>, k: nat, start: Time, window: Time)
    requires k <= |times| && forall i :: 0 <= i < k ==> times[i] < start
    ensures CountIn(times, start, window) == CountIn(times[k..], start, window)
    decreases |times|
  {
    if times != [] {
      var front := times[..|times| - 1];
      if k < |times| {
        var kept := times[k..];
        CountSkipsEarly(front, k, start, window);
        assert kept[..|kept| - 1] == front[k..] && kept[|kept| - 1] == times[|times| - 1];
      } else {
        CountSkipsEarly(front, k - 1, start, window);
        assert front[k - 1..] == [] && times[k..] == [];
      }
    }
  }

  lemma {:induction false} SpacedCountIsBounded(times: seq<Time>, budget: nat, start: Time, window: Time)
    requires Sorted(times) && WindowSpaced(times, budget, window)
    ensures CountIn(times, start, window) <= budget
  {
    if times != [] {
      var last, front := times[|times| - 1], times[..|times| - 1];
      if !(start <= last < start + window) {
        SpacedCountIsBounded(front, budget, start, window);
      } else if |times| > budget {
        var k := |times| - budget;
        assert times[k - 1 + budget] - times[k - 1] >= window;
        assert forall i :: 0 <= i < k ==> times[i] <= times[k - 1];
        CountSkipsEarly(times, k, start, window);
        CountIsAtMostLength(times[k..], start, window);
      } else {
        CountIsAtMostLength(times, start, window);
      }
    }
  }

  /**
    In every session, observations processed in any order of their times, any half-open interval of the window's length
    holds at most `budgetCalls` provider calls of the whole history, although only a pruned list is kept.
   */
  lemma {:induction false} SlidingWindowBound(settings: Settings, provider: Provider, asks: seq<Ask>, start: Time)
    requires ValidSettings(settings)
    ensures CountIn(Times(AskAll(settings, provider, asks).calls), start, settings.window) <= settings.budgetCalls
  {
    SessionKeepsOrder(settings, provider, asks);
    SpacedCountIsBounded(Times(AskAll(settings, provider, asks).calls), settings.budgetCalls, start, settings.window);
  }

  // ------------------------------------------------------------------ cooldown and backoff

  function Pause(settings: Settings, call: Call): Time {
    if call.ending.FailedCall? then Delay(settings, call.failures) else settings.cooldown
  }

  /** A failure counts one more than was counted before, a success starts over, and an exception counts as neither. */
  predicate Counted(calls: seq<Call>, k: nat)
    requires k < |calls|
  {
    var before := if k == 0 then 0 else calls[k - 1].failures;
    match calls[k].ending
    case Succeeded => calls[k].failures == 0
    case FailedCall => calls[k].failures == before + 1
    case Escaped => calls[k].failures == before
  }

  /** Before this time no further call is made; an exception leaves it as it was. */
  function Opening(settings: Settings, calls: seq<Call>): Option<Time> {
    if calls == [] then None
    else
      var last := calls[|calls| - 1];
      if last.ending.Escaped? then Opening(settings, calls[..|calls| - 1]) else Some(last.at + Pause(settings, last))
  }

  predicate Spaced(settings: Settings, calls: seq<Call>, k: nat)
    requires k < |calls|
  {
    && (k > 0 ==> calls[k].at >= calls[k - 1].at + settings.cooldown)
    && NotLater(Opening(settings, calls[..k]), Some(calls[k].at))
  }

  ghost predicate PaceInv(settings: Settings, session: Session) {
    var l, calls := session.limiter, session.calls;
    && (forall k :: 0 <= k < |calls| ==> Counted(calls, k) && Spaced(settings, calls, k))
    && l.nextAllowedAt == Opening(settings, calls)
    && (if calls == [] then l.lastCallAt.None? && l.failureCount == 0
        else l.lastCallAt == Some(calls[|calls| - 1].at) && l.failureCount == calls[|calls| - 1].failures)
  }

  lemma AskKeepsPace(settings: Settings, provider: Provider, session: Session, ask: Ask)
    requires PaceInv(settings, session)
    ensures PaceInv(settings, AskOne(settings, provider, session, ask))
  {
    var after := AskOne(settings, provider, session, ask);
    if after.calls != session.calls {
      assert after.calls[..|session.calls|] == session.calls;
      forall k | 0 <= k < |after.calls| ensures Counted(after.calls, k) && Spaced(settings, after.calls, k) {
        if k < |session.calls| {
          assert Counted(session.calls, k) && Spaced(settings, session.calls, k);
          assert after.calls[..k] == session.calls[..k];
        }
      }
    }
  }

  lemma {:induction false} SessionKeepsPace(settings: Settings, provider: Provider, asks: seq<Ask>)
    ensures PaceInv(settings, AskAll(settings, provider, asks))
  {
    if asks != [] {
      SessionKeepsPace(settings, provider, asks[..|asks| - 1]);
      AskKeepsPace(settings, provider, AskAll(settings, provider, asks[..|asks| - 1]), asks[|asks| - 1]);
    }
  }

  /** Delay(1) + ... + Delay(n). */
  function DelaySum(settings: Settings, n: nat): Time {
    if n == 0 then 0.0 else DelaySum(settings, n - 1) + Delay(settings, n)
  }

  /** The failures among calls j .. m-1. */
  function Failures(calls: seq<Call>, j: nat, m: nat): nat
    requires j <= m <= |calls|
  {
    if m == j then 0 else Failures(calls, j, m - 1) + (if calls[m - 1].ending.FailedCall? then 1 else 0)
  }

  lemma {:induction false} DelayGrows(settings: Settings, few: nat, many: nat)
    requires few <= many
    ensures Pow2(few) <= Pow2(many) && Delay(settings, few) <= Delay(settings, many)
  {
    if few < many {
      DelayGrows(settings, few, many - 1);
    }
  }

  /** While no call succeeds, the counted failures include all since. */
  lemma {:induction false} FailuresAreCounted(calls: seq<Call>, j: nat, m: nat)
    requires forall i :: 0 <= i < |calls| ==> Counted(calls, i)
    requires j < m <= |calls| && forall i :: j <= i < m ==> !calls[i].ending.Succeeded?
    ensures Failures(calls, j, m) <= calls[m - 1].failures
  {
    assert Counted(calls, m - 1);
    if j < m - 1 {
      FailuresAreCounted(calls, j, m - 1);
    } else {
      assert Failures(calls, j, j) == 0;
    }
  }

  lemma {:induction false} FailuresDelay(settings: Settings, calls: seq<Call>, j: nat, m: nat)
    requires forall i :: 0 <= i < |calls| ==> Counted(calls, i) && Spaced(settings, calls, i)
    requires j < m <= |calls| && calls[j].ending.FailedCall?
    requires forall i :: j <= i < m ==> !calls[i].ending.Succeeded?
    ensures Opening(settings, calls[..m]).Some?
    ensures Opening(settings, calls[..m]).value - calls[j].at >= DelaySum(settings, Failures(calls, j, m))
  {
    var n := m - 1;
    assert calls[..m][..n] == calls[..n];
    if n > j {
      FailuresDelay(settings, calls, j, n);
      assert Spaced(settings, calls, n);
    } else {
      assert Failures(calls, j, j) == 0;
    }
    if calls[n].ending.FailedCall? {
      FailuresAreCounted(calls, j, m);
      DelayGrows(settings, Failures(calls, j, m), calls[n].failures);
    }
  }

  /** Any two calls of a session are at least a cooldown apart. */
  lemma {:induction false} CallsAreACooldownApart(settings: Settings, provider: Provider, asks: seq<Ask>, j: nat, k: nat)
    requires ValidSettings(settings) && j < k < |AskAll(settings, provider, asks).calls|
    ensures
      var calls := AskAll(settings, provider, asks).calls;
      calls[k].at - calls[j].at >= settings.cooldown
    decreases k
  {
    SessionKeepsPace(settings, provider, asks);
    assert Spaced(settings, AskAll(settings, provider, asks).calls, k);
    if j < k - 1 {
      CallsAreACooldownApart(settings, provider, asks, j, k - 1);
    }
  }

  /**
    From a failed call on, as long as no call succeeds: with n failures among calls j .. m-1, call m comes no sooner after
    call j than the sum over i = 1..n of min(maxBackoff, max(cooldown, 2^i)). Calls whose exception went through may lie
    between; they add nothing to n and take nothing back.
   */
  lemma BackoffBound(settings: Settings, provider: Provider, asks: seq<Ask>, j: nat, m: nat)
    requires j < m < |AskAll(settings, provider, asks).calls|
    requires AskAll(settings, provider, asks).calls[j].ending.FailedCall?
    requires forall i :: j <= i < m ==> !AskAll(settings, provider, asks).calls[i].ending.Succeeded?
    ensures
      var calls := AskAll(settings, provider, asks).calls;
      calls[m].at - calls[j].at >= DelaySum(settings, Failures(calls, j, m))
  {
    SessionKeepsPace(settings, provider, asks);
    var calls := AskAll(settings, provider, asks).calls;
    FailuresDelay(settings, calls, j, m);
    assert Spaced(settings, calls, m);
  }

  /** Minus infinity is below everything. */
  predicate NotLater(a: Option<Time>, b: Option<Time>) {
    a.Some? ==> b.Some? && a.value <= b.value
  }

  lemma AskNeverLowersNext(settings: Settings, provider: Provider, session: Session, ask: Ask)
    requires ValidSettings(settings)
    ensures NotLater(session.limiter.nextAllowedAt, AskOne(settings, provider, session, ask).limiter.nextAllowedAt)
  {
  }

  /** The time before which calls are refused never moves back in a session. */
  lemma {:induction false} NextAllowedNeverFalls(settings: Settings, provider: Provider, asks: seq<Ask>, n: nat)
    requires ValidSettings(settings) && n <= |asks|
    ensures NotLater(AskAll(settings, provider, asks[..n]).limiter.nextAllowedAt, AskAll(settings, provider, asks).limiter.nextAllowedAt)
    decreases |asks|
  {
    if n < |asks| {
      var front := asks[..|asks| - 1];
      assert front[..n] == asks[..n];
      NextAllowedNeverFalls(settings, provider, front, n);
      AskNeverLowersNext(settings, provider, AskAll(settings, provider, front), asks[|asks| - 1]);
    } else {
      assert asks[..n] == asks;
    }
  }

  // ------------------------------------------------------------------ cache

  /** What is cached is a validated brief of the provider for the context it is stored under. */
  predicate CacheSound(provider: Provider, l: Limiter) {
    (l.cached.Some? <==> l.cachedFor.Some?)
    && (l.cached.Some? ==>
          && l.cachedReason.None? && ValidBrief(l.cached.value, l.cachedFor.value)
          && l.cached.value[ProviderField] == Str(provider.name) && l.cached.value[ModelField] == Str(provider.model))
  }

  lemma {:induction false} SessionKeepsCache(settings: Settings, provider: Provider, asks: seq<Ask>)
    ensures CacheSound(provider, AskAll(settings, provider, asks).limiter)
  {
    if asks != [] {
      SessionKeepsCache(settings, provider, asks[..|asks| - 1]);
    }
  }

  /** Every brief answered in provider mode, fresh or from the cache, is the provider's and valid for the context asked about. */
  lemma {:induction false} ProviderAnswersAreValid(settings: Settings, provider: Provider, asks: seq<Ask>, ask: Ask)
    ensures
      var l := AskAll(settings, provider, asks).limiter;
      var answer := Observe(settings, Some(provider), l, ask.context, ask.now, ask.generatedAt, ask.reply).answer;
      answer.Some? && answer.value.mode.FromProvider? ==>
        && ValidBrief(answer.value.brief, ask.context) && answer.value.reason.None?
        && answer.value.brief[ProviderField] == Str(provider.name) && answer.value.brief[ModelField] == Str(provider.model)
  {
    SessionKeepsCache(settings, provider, asks);
    SoundAnswersAreValid(settings, provider, AskAll(settings, provider, asks).limiter, ask);
  }

  lemma SoundAnswersAreValid(settings: Settings, provider: Provider, l: Limiter, ask: Ask)
    requires CacheSound(provider, l)
    ensures
      var answer := Observe(settings, Some(provider), l, ask.context, ask.now, ask.generatedAt, ask.reply).answer;
      answer.Some? && answer.value.mode.FromProvider? ==>
        && ValidBrief(answer.value.brief, ask.context) && answer.value.reason.None?
        && answer.value.brief[ProviderField] == Str(provider.name) && answer.value.brief[ModelField] == Str(provider.model)
  {
  }

  // ------------------------------------------------------------------ what one observation answers and leaves

  predicate Hit(l: Limiter, context: Context) {
    l.cached.Some? && l.cachedFor == Some(context)
  }

  /** A field of a brief with the service's defaults filled in. */
  function Filled(fields: Payload, field: Field, default: Value): Value {
    if field in fields then fields[field] else default
  }

  /** A candidate the service takes over: valid once completed, and under the provider's own name and model. */
  predicate Taken(reply: Reply, context: Context, provider: Provider, generatedAt: string) {
    && reply.Candidate?
    && ValidBrief(WithDefaults(reply.fields, provider, generatedAt), context)
    && Filled(reply.fields, ProviderField, Str(provider.name)) == Str(provider.name)
    && Filled(reply.fields, ModelField, Str(provider.model)) == Str(provider.model)
  }

  /** Completing a candidate fills in the four fields it lacks and keeps every field it has. */
  lemma DefaultsFillOnly(fields: Payload, provider: Provider, generatedAt: string, field: Field)
    ensures
      var brief := WithDefaults(fields, provider, generatedAt);
      && (field in brief <==> field in fields || field in {SchemaField, GeneratedAt, ProviderField, ModelField})
      && (field in fields ==> brief[field] == fields[field])
      && brief[SchemaField] == Filled(fields, SchemaField, SchemaWord)
      && brief[GeneratedAt] == Filled(fields, GeneratedAt, Str(generatedAt))
      && brief[ProviderField] == Filled(fields, ProviderField, Str(provider.name))
      && brief[ModelField] == Filled(fields, ModelField, Str(provider.model))
  {
  }

  /** The calls kept by pruning are those made less than a window ago. */
  lemma {:induction false} RecentExactly(times: seq<Time>, now: Time, window: Time)
    ensures forall t :: t in Recent(times, now, window) <==> t in times && now - t < window
  {
    if times != [] {
      var front, last := times[..|times| - 1], times[|times| - 1];
      RecentExactly(front, now, window);
      assert times == front + [last];
    }
  }

  /**
    Each answer stands for its own situation: a hit, no provider, a refusal by time, distance or budget, or a call and what
    it brought.
   */
  lemma {:induction false} ObservationAnswers(
    settings: Settings, provider: Option<Provider>, l: Limiter, context: Context, now: Time, generatedAt: string, reply: Reply)
    ensures
      var observed := Observe(settings, provider, l, context, now, generatedAt, reply);
      var early := l.nextAllowedAt.Some? && now < l.nextAllowedAt.value;
      var close := l.lastCallAt.Some? && now - l.lastCallAt.value < settings.cooldown;
      var spent := |Recent(l.callTimes, now, settings.window)| >= settings.budgetCalls;
      && (observed.called <==> !Hit(l, context) && provider.Some? && !early && !close && !spent)
      && (observed.answer.None? <==> observed.called && reply.Escaping?)
      && (Hit(l, context) ==>
            observed.limiter == l && observed.answer.value.brief == l.cached.value && observed.answer.value.reason == l.cachedReason
            && (observed.answer.value.mode.FromProvider? <==> provider.Some?))
      && (!Hit(l, context) && observed.answer.Some? ==>
            var answer := observed.answer.value;
            && (answer.reason == Some(Disabled) <==> provider.None?)
            && (answer.reason == Some(CooldownOrBudget) <==> provider.Some? && (early || close || spent))
            && (answer.reason == Some(RateLimitedReason) <==> observed.called && reply.RateLimited?)
            && (answer.reason == Some(TimeoutReason) <==> observed.called && reply.TimedOut?)
            && (answer.reason == Some(UnavailableReason) <==> observed.called && reply.Unavailable?)
            && (answer.reason.None? <==> observed.called && Taken(reply, context, provider.value, generatedAt))
            && (answer.mode.FromProvider? <==> answer.reason.None?)
            && answer.brief == (if answer.reason.None? then WithDefaults(reply.fields, provider.value, generatedAt)
                                else FallbackBrief(context, generatedAt)))
  {
  }

  /** What an observation leaves: only a call moves the clock fields, and only a taken brief or a disabled service is cached. */
  lemma {:induction false} ObservationLeaves(
    settings: Settings, provider: Option<Provider>, l: Limiter, context: Context, now: Time, generatedAt: string, reply: Reply)
    ensures
      var observed := Observe(settings, provider, l, context, now, generatedAt, reply);
      var after, recent := observed.limiter, Recent(l.callTimes, now, settings.window);
      var disabled := !Hit(l, context) && provider.None?;
      && (!observed.called ==>
            && after.lastCallAt == l.lastCallAt && after.nextAllowedAt == l.nextAllowedAt && after.failureCount == l.failureCount
            && after.callTimes == (if Hit(l, context) || disabled then l.callTimes else recent))
      && (observed.called ==> after.lastCallAt == Some(now) && after.callTimes == recent + [now])
      && (observed.called && observed.answer.None? ==>
            after.failureCount == l.failureCount && after.nextAllowedAt == l.nextAllowedAt)
      && (observed.called && observed.answer.Some? ==>
            if observed.answer.value.mode.FromProvider?
            then after.failureCount == 0 && after.nextAllowedAt == Some(now + settings.cooldown)
            else after.failureCount == l.failureCount + 1
                 && after.nextAllowedAt == Some(now + Delay(settings, l.failureCount + 1)))
      && (if observed.called && observed.answer.Some? && observed.answer.value.mode.FromProvider?
          then after.cachedFor == Some(context) && after.cached == Some(observed.answer.value.brief) && after.cachedReason.None?
          else if disabled
          then after.cachedFor == Some(context) && after.cached == Some(FallbackBrief(context, generatedAt))
               && after.cachedReason == Some(Disabled)
          else after.cachedFor == l.cachedFor && after.cached == l.cached && after.cachedReason == l.cachedReason)
  {
  }

  /** The delay is the cap or less, and otherwise the larger of the cooldown and two to the number of failures. */
  lemma DelayExactly(settings: Settings, failures: nat)
    ensures
      var delay := Delay(settings, failures);
      && delay <= settings.maxBackoff && delay in {settings.maxBackoff, settings.cooldown, Pow2(failures)}
      && (delay < settings.maxBackoff ==> delay >= settings.cooldown && delay >= Pow2(failures))
      && Pow2(0) == 1.0 && Pow2(failures + 1) == 2.0 * Pow2(failures)
  {
  }
}
