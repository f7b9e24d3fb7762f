/** When leased processes do call the Worker twice for one request: what must have happened, and what suffices. */
module SecondCalls {
  import opened Wrappers
  import opened Ledger
  import opened Runs
  import opened Protocol
  import opened Dispatches
  import opened Fencing
  import opened FencedCalls
  import opened LateCalls
  import opened RunProvenance

  // ------------------------------------------------------------------ what must have happened

  /** The step makes the row honour a lease it did not honour before. */
  predicate Revives(s: State, step: Step, lease: Lease) {
    !LeaseHeld(s.row, Some(lease)) && LeaseHeld(Apply(s, step).row, Some(lease))
  }

  ghost predicate Revived(s: State, steps: seq<Step>, lease: Lease) {
    exists n :: 0 <= n < |steps| && Revives(Run(s, steps[..n]), steps[n], lease)
  }

  /** A lease honoured at the end and not at the start was revived on the way. */
  lemma {:induction false} HonouredAgain(s: State, steps: seq<Step>, lease: Lease)
    requires !LeaseHeld(s.row, Some(lease)) && LeaseHeld(Run(s, steps).row, Some(lease))
    ensures Revived(s, steps, lease)
  {
    if steps != [] {
      var front := steps[..|steps| - 1];
      if LeaseHeld(Run(s, front).row, Some(lease)) {
        HonouredAgain(s, front, lease);
        var n :| 0 <= n < |front| && Revives(Run(s, front[..n]), front[n], lease);
        assert front[..n] == steps[..n] && Revives(Run(s, steps[..n]), steps[n], lease);
      } else {
        assert Revives(Run(s, steps[..|front|]), steps[|front|], lease);
      }
    }
  }

  predicate PendingOn(s: State, j: nat, r: RequestId) {
    j < |s.agents| && Pending(s.agents[j].doing, s.past.cleared) == Some(r)
  }

  /** Nobody takes up a request that was dispatched: whoever wants it afterwards wanted it before. */
  lemma PendingWasPending(s: State, step: Step, s': State, j: nat, r: RequestId)
    requires TablesInv(s) && TicketsInv(s) && Left(s.db, r) && s' == Apply(s, step) && PendingOn(s', j, r)
    ensures PendingOn(s, j, r) && s'.agents[j].lease == s.agents[j].lease
  {
    assert j < |s.agents| ==> HeldTicket(s.past, s.agents[j].doing);
    if !(step.Spawn? || step.CheckLease? || step.ReadAttempt? || step.CommitDispatch?) {
      OtherStepsPassNothing(s, step, s');
      if j < |s.agents| {
        OtherStepsMoveCalmly(s, step, s', j);
      }
    } else {
      DispatchersWerePending(s, step, s', j, r);
    }
  }

  lemma DispatchersWerePending(s: State, step: Step, s': State, j: nat, r: RequestId)
    requires Left(s.db, r) && s' == Apply(s, step) && PendingOn(s', j, r)
    requires j < |s.agents| ==> HeldTicket(s.past, s.agents[j].doing)
    requires step.Spawn? || step.CheckLease? || step.ReadAttempt? || step.CommitDispatch?
    ensures PendingOn(s, j, r) && s'.agents[j].lease == s.agents[j].lease
  {
  }

  lemma {:induction false} PendingAllAlong(limits: Limits, steps: seq<Step>, more: seq<Step>, j: nat, r: RequestId)
    requires Left(Run(Initial(limits), steps).db, r)
    requires PendingOn(Run(Run(Initial(limits), steps), more), j, r)
    ensures PendingOn(Run(Initial(limits), steps), j, r)
    ensures Run(Run(Initial(limits), steps), more).agents[j].lease == Run(Initial(limits), steps).agents[j].lease
  {
    if more != [] {
      var s, front := Run(Initial(limits), steps), more[..|more| - 1];
      RunJoins(Initial(limits), steps, front);
      RunKeepsTables(limits, steps + front);
      RunKeepsTickets(limits, steps + front);
      LeftForGood(limits, steps, front, r);
      PendingWasPending(Run(s, front), more[|more| - 1], Run(s, more), j, r);
      PendingAllAlong(limits, steps, front, j, r);
    }
  }

  lemma {:induction false} RunJoins(s: State, steps: seq<Step>, more: seq<Step>)
    ensures Run(s, steps + more) == Run(Run(s, steps), more)
  {
    if more == [] {
      assert steps + more == steps;
    } else {
      var front := more[..|more| - 1];
      RunJoins(s, steps, front);
      assert (steps + more)[..|steps + more| - 1] == steps + front;
    }
  }

  /** A request that left AUTHORIZED was dispatched, and stays so. */
  lemma {:induction false} LeftForGood(limits: Limits, steps: seq<Step>, more: seq<Step>, r: RequestId)
    requires Left(Run(Initial(limits), steps).db, r)
    ensures Left(Run(Run(Initial(limits), steps), more).db, r)
  {
    var s := Run(Initial(limits), steps);
    RunKeepsTables(limits, steps);
    RunJoins(Initial(limits), steps, more);
    RunKeepsTables(limits, steps + more);
    HistoryOnlyGrows(s, more);
    assert WasCleared(s.past.cleared, r);
    var k :| 0 <= k < |s.past.cleared| && s.past.cleared[k].request == r;
    assert Run(s, more).past.cleared[k].request == r;
  }

  lemma {:induction false} HistoryOnlyGrows(s: State, steps: seq<Step>)
    ensures s.past.cleared <= Run(s, steps).past.cleared && s.past.invoked <= Run(s, steps).past.invoked
  {
    if steps != [] {
      HistoryOnlyGrows(s, steps[..|steps| - 1]);
      HistoryGrows(Run(s, steps[..|steps| - 1]), steps[|steps| - 1], Run(s, steps));
    }
  }

  /** Process `i` passes the lease check for `r` at this state. */
  predicate Passing(s: State, i: nat, r: RequestId) {
    && Acts(s, i) && s.agents[i].doing.Cleared? && TicketFor(s, s.agents[i].doing.ticket, r)
    && s.agents[i].lease.Some? && LeaseHeld(s.row, s.agents[i].lease)
  }

  /**
    Whatever leased processes and operators do: when `i` passes the lease check for a request and later `j` passes it for
    the same request, then `j` already wanted the request when `i` passed, its lease was not the row's (unless the two
    share one), and some step in between made the row honour the lease of `j` again.
   */
  lemma {:induction false} SecondPassNeedsRevival(
    limits: Limits, steps: seq<Step>, more: seq<Step>, i: nat, j: nat, r: RequestId)
    requires Passing(Run(Initial(limits), steps), i, r)
    requires Passing(Run(Run(Initial(limits), steps + [CheckLease(i)]), more), j, r)
    ensures
      var s := Run(Initial(limits), steps + [CheckLease(i)]);
      && j != i && i < |s.agents| && PendingOn(s, j, r) && s.agents[j].lease.Some? && LeaseHeld(s.row, s.agents[i].lease)
      && (s.agents[j].lease == s.agents[i].lease
          || (!LeaseHeld(s.row, s.agents[j].lease) && Revived(s, more, s.agents[j].lease.value)))
  {
    var before, passed := Run(Initial(limits), steps), steps + [CheckLease(i)];
    assert passed[..|steps|] == steps;
    var s := Run(Initial(limits), passed);
    assert s == DoCheckLease(before, i);
    RunKeepsTables(limits, passed);
    assert Left(s.db, r);
    PendingAllAlong(limits, passed, more, j, r);
    if s.agents[j].lease != s.agents[i].lease {
      HonouredAgain(s, more, s.agents[j].lease.value);
    }
  }

  /** With leased processes, a second pass for one request needs an accepted stale write before it. */
  lemma {:induction false} SecondPassNeedsStaleWrite(limits: Limits, steps: seq<Step>) returns (n: nat)
    requires OnlyLeased(steps) && !PassedOnce(Run(Initial(limits), steps).past)
    ensures n < |steps| && StaleWrite(Run(Initial(limits), steps[..n]), steps[n])
  {
    if NoStaleWrite(Initial(limits), steps) {
      LeasedProcessesInvokeAtMostOnce(limits, steps);
      assert false;
    }
    n :| 0 <= n < |steps| && StaleWrite(Run(Initial(limits), steps[..n]), steps[n]);
  }

  // ------------------------------------------------------------------ what suffices

  /** A process that had not called yet calls on a ticket nobody had called on. */
  lemma {:induction false} CallIsNew(s: State, steps: seq<Step>, j: nat)
    requires TicketsInv(s) && OwnDispatch(steps, j) && j < |s.agents| && !s.agents[j].doing.Returned?
    requires j < |Run(s, steps).agents| && Run(s, steps).agents[j].doing.Returned?
    ensures Run(s, steps).agents[j].doing.ticket !in s.past.invoked
  {
    if steps != [] {
      var front, step := steps[..|steps| - 1], steps[|steps| - 1];
      OwnStepsKeepTickets(s, front, j);
      var before := Run(s, front);
      HistoryOnlyGrows(s, front);
      assert DispatchStep(step, j);
      if before.agents[j].doing.Returned? {
        ReturnedStays(before, step, j);
        CallIsNew(s, front, j);
      } else {
        OnlyInvokeReturns(before, step, j);
        assert HeldTicket(before.past, before.agents[j].doing);
      }
    }
  }

  lemma {:induction false} OwnStepsKeepTickets(s: State, steps: seq<Step>, j: nat)
    requires TicketsInv(s) && OwnDispatch(steps, j)
    ensures TicketsInv(Run(s, steps)) && |Run(s, steps).agents| == |s.agents|
  {
    if steps != [] {
      var front := steps[..|steps| - 1];
      OwnStepsKeepTickets(s, front, j);
      assert DispatchStep(steps[|steps| - 1], j);
      StepKeepsTickets(Run(s, front), steps[|steps| - 1], Run(s, steps));
      OwnStepsAddNobody(Run(s, front), steps[|steps| - 1], j);
    }
  }

  lemma OwnStepsAddNobody(s: State, step: Step, j: nat)
    requires DispatchStep(step, j)
    ensures |Apply(s, step).agents| == |s.agents|
  {
  }

  lemma ReturnedStays(s: State, step: Step, j: nat)
    requires DispatchStep(step, j) && j < |s.agents| && s.agents[j].doing.Returned?
    ensures Apply(s, step) == s
  {
  }

  lemma OnlyInvokeReturns(s: State, step: Step, j: nat)
    requires DispatchStep(step, j) && j < |s.agents| && !s.agents[j].doing.Returned?
    requires j < |Apply(s, step).agents| && Apply(s, step).agents[j].doing.Returned?
    ensures s.agents[j].doing == Confirmed(Apply(s, step).agents[j].doing.ticket)
  {
  }

  /**
    The converse: once a request was called, a process that can call it does so by its own steps, and the Worker has then
    been called twice. So every state in which a revived process still wants a called request is one step from failure.
   */
  lemma {:induction false} AbleProcessCallsAgain(limits: Limits, steps: seq<Step>, j: nat, r: RequestId) returns (more: seq<Step>)
    requires WasInvoked(Run(Initial(limits), steps).past, r) && CanCall(Run(Initial(limits), steps), j, r)
    ensures OwnDispatch(more, j) && !EachInvokedOnce(Run(Run(Initial(limits), steps), more).past)
  {
    var s := Run(Initial(limits), steps);
    AbleProcessesCall(s, j, r);
    more :| OwnDispatch(more, j) && Called(Run(s, more), j, r);
    RunKeepsTickets(limits, steps);
    OwnStepsKeepTickets(s, more, j);
    CallIsNew(s, more, j);
    HistoryOnlyGrows(s, more);
    var after := Run(s, more);
    TwoCallsOf(s.past, after, after.agents[j].doing.ticket, r, j);
  }

  lemma TwoCallsOf(past: History, after: State, ticket: nat, r: RequestId, j: nat)
    requires WasInvoked(past, r) && ticket !in past.invoked
    requires past.cleared <= after.past.cleared && past.invoked <= after.past.invoked && TicketsInv(after)
    requires Called(after, j, r) && after.agents[j].doing == Returned(ticket)
    ensures !EachInvokedOnce(after.past)
  {
    var t :| t in past.invoked && t < |past.cleared| && past.cleared[t].request == r;
    assert HeldTicket(after.past, after.agents[j].doing);
    var a :| 0 <= a < |past.invoked| && past.invoked[a] == t;
    var b :| 0 <= b < |after.past.invoked| && after.past.invoked[b] == ticket;
    assert after.past.invoked[a] == t && a != b;
    assert after.past.cleared[t] == past.cleared[t];
  }
}
