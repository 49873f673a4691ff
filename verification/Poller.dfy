/**
 web/src/lib/poll.ts: the closure of createPoller. A request is known by the generation it started with.
 Settling is three steps, because the callbacks in between may call the poller again: the outcome is
 delivered, the active slot is released, and polling resumes. Delays are in milliseconds without jitter.
 */
module Poller {
  import opened Common

  datatype Request = Request(run: nat, aborted: bool)

  datatype Stage = Idle | Settling | Released

  datatype Poll = Poll(
    paused: bool,
    hidden: bool,
    disposed: bool,
    generation: nat,
    failures: nat,
    retryDelay: nat,
    refreshWhenIdle: bool,
    active: Option<Request>,
    timer: Option<nat>,
    stage: Stage)

  datatype Outcome = Data | Unauthorized | Failure(retryAfterMs: nat)

  // ---------- backoff ----------

  function Pow2(n: nat): nat { if n == 0 then 1 else 2 * Pow2(n - 1) }

  function Backoff(failures: nat): nat
  {
    if failures == 0 then 0 else Min(30000, 1000 * Pow2(if failures - 1 < 5 then failures - 1 else 5))
  }

  function Delay(p: Poll, interval: nat): nat { Max(Max(interval, p.retryDelay), Backoff(p.failures)) }

  // ---------- steps ----------

  function Schedule(p: Poll, interval: nat): Poll
  {
    if p.disposed || p.paused || p.hidden || p.active.Some? then p.(timer := None)
      else p.(timer := Some(Delay(p, interval)))
  }

  function Refresh(p: Poll, force: bool): Poll
  {
    if p.disposed || p.hidden || (p.paused && !force) || p.active.Some? then p
    else p.(refreshWhenIdle := false, timer := None, generation := p.generation + 1,
      active := Some(Request(p.generation + 1, false)))
  }

  function Cancel(p: Poll): Poll
  {
    p.(generation := p.generation + 1, timer := None,
       active := if p.active.Some? then Some(p.active.value.(aborted := true)) else None)
  }

  function Invalidate(p: Poll): Poll
  {
    if p.disposed || p.paused || p.hidden then p
    else if p.active.Some? then Cancel(p.(refreshWhenIdle := true))
    else Refresh(p, false)
  }

  function SetPaused(p: Poll, value: bool, refreshOnResume: bool, interval: nat): Poll
  {
    if p.paused == value || p.disposed then p else
      var q := p.(paused := value);
      if value then Cancel(q)
      else if q.hidden then q
      else if refreshOnResume then Invalidate(q) else Schedule(q, interval)
  }

  function SetHidden(p: Poll, value: bool): Poll
  {
    if p.hidden == value || p.disposed then p else
      var q := p.(hidden := value);
      if value then Cancel(q) else if !q.paused then Invalidate(q) else q
  }

  function Dispose(p: Poll): Poll { Cancel(p.(disposed := true)) }

  /** The request's timeout aborts it without ending its generation. */
  function TimeOut(p: Poll): Poll
  {
    if p.active.Some? && p.stage == Idle then p.(active := Some(p.active.value.(aborted := true)))
      else p
  }

  /** The timer fires. */
  function Fire(p: Poll): Poll { if p.timer.Some? then Refresh(p.(timer := None), false) else p }

  /** Whether the outcome of the active request reaches a callback. */
  predicate Delivers(p: Poll, outcome: Outcome)
  {
    && p.active.Some? && p.stage == Idle && !p.disposed && p.active.value.run == p.generation
    && (outcome == Data ==> !p.active.value.aborted)
  }

  function Settle(p: Poll, outcome: Outcome): Poll
  {
    if p.active.None? || p.stage != Idle then p else
      var q := p.(stage := Settling);
      if !Delivers(p, outcome) then q
      else
        match outcome
        case Data => q.(failures := 0, retryDelay := 0)
        case Unauthorized => q.(disposed := true)
        case Failure(retryAfterMs) => q.(failures := p.failures + 1, retryDelay := retryAfterMs)
  }

  function Release(p: Poll): Poll { if p.stage == Settling then p.(active := None, stage := Released) else p }

  function Resume(p: Poll, interval: nat): Poll
  {
    if p.stage != Released then p else
      var q := p.(stage := Idle);
      if q.refreshWhenIdle && !q.disposed && !q.paused && !q.hidden then Refresh(q.(refreshWhenIdle := false), false)
        else Schedule(q, interval)
  }

  /** createPoller ends by refreshing once. */
  function NewPoll(paused: bool, hidden: bool): Poll
  {
    Refresh(Poll(paused, hidden, false, 0, 0, 0, false, None, None, Idle), false)
  }

  datatype Call =
    | CallRefresh(force: bool)
    | CallCancel
    | CallInvalidate
    | CallSetPaused(value: bool, refreshOnResume: bool, interval: nat)
    | CallSetHidden(value: bool)
    | CallDispose
    | RequestTimesOut
    | TimerFires
    | RequestSettles(outcome: Outcome)
    | SlotIsReleased
    | PollingResumes(interval: nat)

  function Next(p: Poll, c: Call): Poll
  {
    match c
    case CallRefresh(force) => Refresh(p, force)
    case CallCancel => Cancel(p)
    case CallInvalidate => Invalidate(p)
    case CallSetPaused(value, refreshOnResume, interval) => SetPaused(p, value, refreshOnResume, interval)
    case CallSetHidden(value) => SetHidden(p, value)
    case CallDispose => Dispose(p)
    case RequestTimesOut => TimeOut(p)
    case TimerFires => Fire(p)
    case RequestSettles(outcome) => Settle(p, outcome)
    case SlotIsReleased => Release(p)
    case PollingResumes(interval) => Resume(p, interval)
  }

  function After(p: Poll, calls: seq<Call>): Poll
  {
    if calls == [] then p else Next(After(p, calls[..|calls| - 1]), calls[|calls| - 1])
  }

  // ---------- invariant ----------

  ghost predicate PollOk(p: Poll)
  {
    && (p.active.Some? ==> p.active.value.run <= p.generation && p.timer.None?)
    && (p.stage == Settling ==> p.active.Some?)
  }

  lemma NextKeepsOk(p: Poll, c: Call)
    requires PollOk(p)
    ensures PollOk(Next(p, c)) && p.generation <= Next(p, c).generation
  {
    hide Delay;
  }

  lemma {:induction false} RunOk(p: Poll, calls: seq<Call>)
    requires PollOk(p)
    ensures PollOk(After(p, calls))
  {
    if calls != [] {
      RunOk(p, calls[..|calls| - 1]);
      NextKeepsOk(After(p, calls[..|calls| - 1]), calls[|calls| - 1]);
    }
  }

  lemma NewPollOk(paused: bool, hidden: bool)
    ensures PollOk(NewPoll(paused, hidden)) && Polling(NewPoll(paused, hidden))
  {
  }

  // ---------- one request at a time ----------

  /** A request begins only when none is active: there is never a second one beside it. */
  lemma OneRequestAtATime(p: Poll, c: Call)
    ensures Next(p, c).active.Some? && (p.active.None? || Next(p, c).active.value.run != p.active.value.run) ==>
      p.active.None? && Next(p, c).active.value.run == Next(p, c).generation == p.generation + 1
  {
    hide Delay;
  }

  // ---------- what a request may still deliver ----------

  /** The calls that stop the request p is waiting for. Showing the page, or resuming with a refresh, starts it over. */
  predicate Stops(p: Poll, c: Call)
  {
    match c
    case CallCancel => true
    case CallDispose => true
    case CallInvalidate => !p.disposed && !p.paused && !p.hidden
    case CallSetPaused(value, refreshOnResume, interval) =>
      value != p.paused && !p.disposed && (value || (!p.hidden && refreshOnResume))
    case CallSetHidden(value) => value != p.hidden && !p.disposed && (value || !p.paused)
    case RequestTimesOut => p.stage == Idle
    case _ => false
  }

  /** What keeps the data of the active request from the page. */
  predicate Disturbed(p: Poll)
    requires p.active.Some?
  {
    p.disposed || p.active.value.run != p.generation || p.active.value.aborted
  }

  /** A call that leaves the request active disturbs it exactly when it stops it, and nothing undoes that. */
  lemma StoppingDisturbs(p: Poll, c: Call)
    requires PollOk(p) && p.active.Some? && Next(p, c).active.Some?
    ensures Stops(p, c) || Disturbed(p) ==> Disturbed(Next(p, c))
    ensures Disturbed(Next(p, c)) && Next(p, c).stage != Settling ==> Stops(p, c) || Disturbed(p)
  {
    hide Delay;
  }

  /** Only the release of the slot leaves Settling. */
  lemma SettlingLasts(p: Poll, c: Call)
    requires PollOk(p) && p.stage == Settling && Next(p, c).active.Some?
    ensures Next(p, c).stage == Settling
  {
    hide Delay;
  }

  lemma BegunIsUndisturbed(p: Poll, c: Call)
    requires p.active.None? && Next(p, c).active.Some?
    ensures !Disturbed(Next(p, c))
  {
    hide Delay;
  }

  ghost predicate SameRequest(p: Poll, q: Poll)
  {
    p.active.Some? && q.active.Some? && p.active.value.run == q.active.value.run
  }

  /** Call j of the run stopped the request that is active at its end. */
  ghost predicate StoppedAt(p: Poll, calls: seq<Call>, j: nat)
    requires j < |calls|
  {
    SameRequest(After(p, calls[..j]), After(p, calls)) && Stops(After(p, calls[..j]), calls[j])
  }

  ghost predicate Unstopped(p: Poll, calls: seq<Call>)
  {
    forall j :: 0 <= j < |calls| ==> !StoppedAt(p, calls, j)
  }

  lemma {:induction false} GenerationGrows(p: Poll, calls: seq<Call>, j: nat)
    requires PollOk(p) && j <= |calls|
    ensures After(p, calls[..j]).generation <= After(p, calls).generation
  {
    if j == |calls| {
      assert calls[..j] == calls;
    } else {
      var front := calls[..|calls| - 1];
      GenerationGrows(p, front, j);
      assert front[..j] == calls[..j];
      RunOk(p, front);
      NextKeepsOk(After(p, front), calls[|calls| - 1]);
    }
  }

  /** A request that began with the last call was never stopped. */
  lemma BegunIsUnstopped(p: Poll, calls: seq<Call>)
    requires PollOk(p) && calls != []
    requires var q := After(p, calls[..|calls| - 1]); q.active.None? && After(p, calls).active.Some?
    ensures Unstopped(p, calls)
  {
    var front := calls[..|calls| - 1];
    OneRequestAtATime(After(p, front), calls[|calls| - 1]);
    forall j | 0 <= j < |calls| ensures !StoppedAt(p, calls, j) {
      assert calls[..j] == front[..j];
      GenerationGrows(p, front, j);
      RunOk(p, calls[..j]);
      hide After;
    }
  }

  lemma SameRequestSame(o: Poll, p: Poll, q: Poll)
    requires SameRequest(p, q)
    ensures SameRequest(o, p) == SameRequest(o, q)
  {
  }

  lemma StoppedBefore(p: Poll, calls: seq<Call>, j: nat)
    requires j + 1 < |calls| && SameRequest(After(p, calls[..|calls| - 1]), After(p, calls))
    ensures StoppedAt(p, calls[..|calls| - 1], j) == StoppedAt(p, calls, j)
  {
    hide After, Stops, SameRequest;
    assert calls[..|calls| - 1][..j] == calls[..j];
    SameRequestSame(After(p, calls[..j]), After(p, calls[..|calls| - 1]), After(p, calls));
  }

  lemma UnstoppedMore(p: Poll, front: seq<Call>, calls: seq<Call>)
    requires |calls| == |front| + 1 && forall j :: 0 <= j < |front| ==> StoppedAt(p, front, j) == StoppedAt(p, calls, j)
    ensures Unstopped(p, calls) <==> Unstopped(p, front) && !StoppedAt(p, calls, |front|)
  {
    hide StoppedAt;
  }

  /** The stops of a request that stays active are those before the last call and perhaps the last call. */
  lemma StopsSoFar(p: Poll, calls: seq<Call>)
    requires calls != [] && SameRequest(After(p, calls[..|calls| - 1]), After(p, calls))
    ensures var front := calls[..|calls| - 1];
      Unstopped(p, calls) <==> Unstopped(p, front) && !Stops(After(p, front), calls[|calls| - 1])
  {
    var front := calls[..|calls| - 1];
    assert StoppedAt(p, calls, |front|) == Stops(After(p, front), calls[|front|]);
    hide *;
    forall j | 0 <= j < |front| ensures StoppedAt(p, front, j) == StoppedAt(p, calls, j) { StoppedBefore(p, calls, j); }
    UnstoppedMore(p, front, calls);
  }

  lemma {:induction false} DisturbedIffStopped(p: Poll, calls: seq<Call>)
    requires PollOk(p) && (p.active.Some? ==> !Disturbed(p) && p.stage != Settling)
    requires After(p, calls).active.Some?
    ensures Unstopped(p, calls) || Disturbed(After(p, calls))
    ensures After(p, calls).stage != Settling && Disturbed(After(p, calls)) ==> !Unstopped(p, calls)
  {
    if calls != [] {
      var front, last := calls[..|calls| - 1], calls[|calls| - 1];
      var q := After(p, front);
      RunOk(p, front);
      hide Disturbed, Stops, Unstopped, PollOk, Next;
      if q.active.Some? {
        DisturbedIffStopped(p, front);
        OneRequestAtATime(q, last);
        StopsSoFar(p, calls);
        StoppingDisturbs(q, last);
        if q.stage == Settling { SettlingLasts(q, last); }
      } else {
        BegunIsUnstopped(p, calls);
        BegunIsUndisturbed(q, last);
      }
    }
  }

  /**
   The data of the active request reaches the page if and only if no call of the run stopped that request: no
   cancel, dispose, effective pause, hide or invalidate, and no timeout, since it began.
   */
  lemma DeliveredDataIsUndisturbed(paused: bool, hidden: bool, calls: seq<Call>)
    requires var p := After(NewPoll(paused, hidden), calls); p.active.Some? && p.stage == Idle
    ensures var p := After(NewPoll(paused, hidden), calls);
      Delivers(p, Data) <==> forall j :: 0 <= j < |calls| ==> !StoppedAt(NewPoll(paused, hidden), calls, j)
  {
    NewPollOk(paused, hidden);
    DisturbedIffStopped(NewPoll(paused, hidden), calls);
    hide After, NewPoll, StoppedAt;
  }

  lemma DisposedStaysSilent(p: Poll, c: Call, outcome: Outcome)
    requires p.disposed
    ensures Next(p, c).disposed && !Delivers(p, outcome)
  {
    hide Delay;
  }

  /** Once disposed, a poller delivers no outcome of any kind, whatever is called later. */
  lemma {:induction false} NothingAfterDispose(p: Poll, calls: seq<Call>, i: nat, outcome: Outcome)
    requires i < |calls| && calls[i] == CallDispose
    ensures After(p, calls).disposed && !Delivers(After(p, calls), outcome)
  {
    var front, last := calls[..|calls| - 1], calls[|calls| - 1];
    if i < |front| {
      NothingAfterDispose(p, front, i, outcome);
      DisposedStaysSilent(After(p, front), last, outcome);
    }
    DisposedStaysSilent(After(p, calls), last, outcome);
  }

  // ---------- progress ----------

  /** While it should poll, a request is active, a timer is pending, or a finished request is about to resume it. */
  ghost predicate Polling(p: Poll)
  {
    !p.disposed && !p.paused && !p.hidden ==> p.active.Some? || p.timer.Some? || p.stage == Released
  }

  /** A cancel now would leave something to go on with, or nothing has to go on. */
  predicate Bridged(p: Poll) { p.active.Some? || p.stage == Released || p.disposed || p.paused || p.hidden }

  lemma NextKeepsPolling(p: Poll, c: Call)
    requires PollOk(p) && Polling(p) && (c == CallCancel ==> Bridged(p))
    ensures Polling(Next(p, c))
  {
    hide Delay;
  }

  lemma UnbridgedCancelStalls(p: Poll)
    requires !Bridged(p)
    ensures !Polling(Cancel(p))
  {
  }

  /** Every cancel of the run finds a poller it cannot stall. */
  ghost predicate CancelsBridged(p: Poll, calls: seq<Call>)
  {
    forall i :: 0 <= i < |calls| && calls[i] == CallCancel ==> Bridged(After(p, calls[..i]))
  }

  lemma {:induction false} PollsWhileBridged(p: Poll, calls: seq<Call>)
    requires PollOk(p) && Polling(p) && CancelsBridged(p, calls)
    ensures Polling(After(p, calls))
  {
    if calls != [] {
      var front := calls[..|calls| - 1];
      assert forall i :: 0 <= i < |front| ==> front[i] == calls[i] && front[..i] == calls[..i];
      PollsWhileBridged(p, front);
      RunOk(p, front);
      hide Polling, PollOk, Next, Bridged;
      NextKeepsPolling(After(p, front), calls[|calls| - 1]);
    }
  }

  /** As long as nobody calls the exported cancel, a visible, unpaused, undisposed poller keeps polling. */
  lemma PollingContinues(paused: bool, hidden: bool, calls: seq<Call>)
    requires CallCancel !in calls
    ensures Polling(After(NewPoll(paused, hidden), calls))
  {
    NewPollOk(paused, hidden);
    hide NewPoll, After;
    PollsWhileBridged(NewPoll(paused, hidden), calls);
  }

  /**
   With cancels: a poller polls at every moment of a run if and only if each cancel finds a request active or about to
   resume polling, or a poller that is disposed, paused or hidden.
   */
  lemma CancelStallsExactly(paused: bool, hidden: bool, calls: seq<Call>)
    ensures (forall i :: 0 <= i <= |calls| ==> Polling(After(NewPoll(paused, hidden), calls[..i])))
      <==> CancelsBridged(NewPoll(paused, hidden), calls)
  {
    var p := NewPoll(paused, hidden);
    NewPollOk(paused, hidden);
    hide NewPoll, Polling, Bridged;
    if CancelsBridged(p, calls) {
      forall i | 0 <= i <= |calls| ensures Polling(After(p, calls[..i])) {
        assert forall k :: 0 <= k < i ==> calls[..i][k] == calls[k] && calls[..i][..k] == calls[..k];
        PollsWhileBridged(p, calls[..i]);
      }
    } else {
      var i :| 0 <= i < |calls| && calls[i] == CallCancel && !Bridged(After(p, calls[..i]));
      UnbridgedCancelStalls(After(p, calls[..i]));
      assert calls[..i + 1][..i] == calls[..i];
      assert After(p, calls[..i + 1]) == Cancel(After(p, calls[..i]));
    }
  }

  /** What happens by itself: timers, timeouts, and the steps of a request that settles. */
  predicate Unattended(c: Call)
  {
    c.RequestTimesOut? || c.TimerFires? || c.RequestSettles? || c.SlotIsReleased? || c.PollingResumes?
  }

  lemma StalledStays(p: Poll, c: Call)
    requires PollOk(p) && !Polling(p) && Unattended(c)
    ensures Next(p, c) == p
  {
    hide Delay;
  }

  /** A stalled poller stays as it is until someone calls it again. */
  lemma {:induction false} StallLasts(p: Poll, calls: seq<Call>)
    requires PollOk(p) && !Polling(p) && forall i :: 0 <= i < |calls| ==> Unattended(calls[i])
    ensures After(p, calls) == p
  {
    if calls != [] {
      StallLasts(p, calls[..|calls| - 1]);
      hide Polling, PollOk, Next, Unattended;
      StalledStays(p, calls[|calls| - 1]);
    }
  }

  /** A new poller whose first request has come back, then cancel: nothing is active and no timer is pending. */
  lemma CancelCanStall()
    ensures !Polling(After(NewPoll(false, false),
      [RequestSettles(Data), SlotIsReleased, PollingResumes(1000), CallCancel]))
  {
    var calls := [RequestSettles(Data), SlotIsReleased, PollingResumes(1000), CallCancel];
    var p := NewPoll(false, false);
    assert calls[..3][..2] == calls[..2] && calls[..2][..1] == calls[..1] && calls[..1][..0] == [];
    assert After(p, calls[..1]) == Next(p, calls[0]);
    assert After(p, calls[..2]) == Next(Next(p, calls[0]), calls[1]);
    assert After(p, calls[..3]) == Next(Next(Next(p, calls[0]), calls[1]), calls[2]);
    assert After(p, calls) == Next(After(p, calls[..3]), calls[3]);
  }

  lemma {:induction false} Pow2Grows(m: nat, n: nat)
    requires m <= n
    ensures 1 <= Pow2(m) <= Pow2(n)
  {
    if m < n { Pow2Grows(m, n - 1); }
    if m == n && m > 0 { Pow2Grows(m - 1, n - 1); }
  }

  /** Failures back off from one second to thirty, never less after more failures, and a success ends the backoff. */
  lemma BackoffIsBounded(m: nat, n: nat)
    requires m <= n
    ensures Backoff(m) <= Backoff(n) <= 30000 && (n > 0 ==> Backoff(n) >= 1000) && Backoff(0) == 0 && Backoff(1) == 1000
  {
    if m > 0 { Pow2Grows(if m - 1 < 5 then m - 1 else 5, if n - 1 < 5 then n - 1 else 5); }
    if n > 0 { Pow2Grows(0, if n - 1 < 5 then n - 1 else 5); }
  }

  // ---------- the closure as an object ----------

  class PollerObject {
    var paused: bool
    var hidden: bool
    var disposed: bool
    var generation: nat
    var failures: nat
    var retryDelay: nat
    var refreshWhenIdle: bool
    var active: Option<Request>
    var timer: Option<nat>
    var stage: Stage

    ghost function State(): Poll
      reads this
    {
      Poll(paused, hidden, disposed, generation, failures, retryDelay, refreshWhenIdle, active, timer, stage)
    }

    constructor (startPaused: bool, startHidden: bool)
      ensures State() == NewPoll(startPaused, startHidden)
    {
      paused, hidden, disposed, generation, failures, retryDelay, refreshWhenIdle := startPaused, startHidden, false, 0,
        0, 0, false;
      active, timer, stage := None, None, Idle;
      new;
      RefreshNow(false);
    }

    method ScheduleNext(interval: nat)
      modifies this`timer
      ensures State() == Schedule(old(State()), interval)
    {
      timer := None;
      if disposed || paused || hidden || active.Some? { return; }
      timer := Some(Max(Max(interval, retryDelay), Backoff(failures)));
    }

    method RefreshNow(force: bool)
      modifies this
      ensures State() == Refresh(old(State()), force)
    {
      if disposed || hidden || (paused && !force) || active.Some? { return; }
      refreshWhenIdle := false;
      timer := None;
      generation := generation + 1;
      active := Some(Request(generation, false));
    }

    method CancelNow()
      modifies this
      ensures State() == Cancel(old(State()))
    {
      generation := generation + 1;
      timer := None;
      if active.Some? { active := Some(active.value.(aborted := true)); }
    }

    method InvalidateNow()
      modifies this
      ensures State() == Invalidate(old(State()))
    {
      if disposed || paused || hidden { return; }
      if active.Some? {
        refreshWhenIdle := true;
        CancelNow();
      } else {
        RefreshNow(false);
      }
    }

    method ChangePaused(value: bool, refreshOnResume: bool, interval: nat)
      modifies this
      ensures State() == SetPaused(old(State()), value, refreshOnResume, interval)
    {
      if paused == value || disposed { return; }
      paused := value;
      if value {
        CancelNow();
      } else if !hidden {
        if refreshOnResume { InvalidateNow(); } else { ScheduleNext(interval); }
      }
    }

    method ChangeHidden(value: bool)
      modifies this
      ensures State() == SetHidden(old(State()), value)
    {
      if hidden == value || disposed { return; }
      hidden := value;
      if value {
        CancelNow();
      } else if !paused {
        InvalidateNow();
      }
    }

    method DisposeNow()
      modifies this
      ensures State() == Dispose(old(State()))
    {
      disposed := true;
      CancelNow();
    }

    /** The part of refresh after its await; delivered says that onData was called. */
    method Settled(outcome: Outcome) returns (delivered: bool)
      requires active.Some? && stage == Idle
      modifies this
      ensures State() == Settle(old(State()), outcome)
        && (delivered <==> outcome == Data && Delivers(old(State()), Data))
    {
      delivered := false;
      stage := Settling;
      var run := active.value.run;
      match outcome {
        case Data =>
          if disposed || run != generation || active.value.aborted { return; }
          failures, retryDelay := 0, 0;
          delivered := true;
        case Unauthorized =>
          if disposed || run != generation { return; }
          disposed := true;
        case Failure(retryAfterMs) =>
          if disposed || run != generation { return; }
          failures := failures + 1;
          retryDelay := retryAfterMs;
      }
    }

    /** The finally block: release the slot, then resume. */
    method Finally(interval: nat)
      requires stage == Settling
      modifies this
      ensures State() == Resume(Release(old(State())), interval)
    {
      active := None;
      stage := Idle;
      if refreshWhenIdle && !disposed && !paused && !hidden {
        refreshWhenIdle := false;
        RefreshNow(false);
      } else {
        ScheduleNext(interval);
      }
    }
  }
}
