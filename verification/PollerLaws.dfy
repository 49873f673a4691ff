/** How long a poller waits: the delay it arms, and the failures and the retry delay it remembers. */
module PollerLaws {
  import opened Common
  import opened Poller

  /** The waiting time in milliseconds after a number of failures in a row. */
  function BackoffMs(failures: nat): nat
  {
    match failures
    case 0 => 0
    case 1 => 1000
    case 2 => 2000
    case 3 => 4000
    case 4 => 8000
    case 5 => 16000
    case _ => 30000
  }

  lemma BackoffIs(failures: nat)
    ensures Backoff(failures) == BackoffMs(failures)
  {
    assert Pow2(0) == 1 && Pow2(1) == 2 && Pow2(2) == 4 && Pow2(3) == 8 && Pow2(4) == 16 && Pow2(5) == 32;
  }

  /** value is the longest of the interval, what the last failure asked for, and the backoff. */
  predicate Longest(value: nat, interval: nat, p: Poll)
  {
    && value >= interval && value >= p.retryDelay && value >= BackoffMs(p.failures)
    && (value == interval || value == p.retryDelay || value == BackoffMs(p.failures))
  }

  /** The interval a call reads when it schedules the next poll. */
  function IntervalOf(c: Call): Option<nat>
  {
    match c
    case CallSetPaused(_, _, interval) => Some(interval)
    case PollingResumes(interval) => Some(interval)
    case _ => None
  }

  lemma DelayIsLongest(p: Poll, interval: nat)
    ensures Longest(Delay(p, interval), interval, p)
  {
    BackoffIs(p.failures);
  }

  /** A timer that is pending after a call was pending before, with the same memory, or was armed by the call. */
  lemma StepArms(p: Poll, c: Call)
    requires PollOk(p)
    ensures var q := Next(p, c);
      q.timer.Some? ==>
        || (q.timer == p.timer && q.failures == p.failures && q.retryDelay == p.retryDelay)
        || (IntervalOf(c).Some? && Longest(q.timer.value, IntervalOf(c).value, q))
  {
    if IntervalOf(c).Some? {
      DelayIsLongest(p, IntervalOf(c).value);
      DelayIsLongest(Next(p, c), IntervalOf(c).value);
    }
    hide Backoff, BackoffMs;
  }

  ghost predicate ArmedAt(p: Poll, calls: seq<Call>, j: nat)
  {
    && j < |calls| && p.timer.Some? && IntervalOf(calls[j]).Some?
    && Longest(p.timer.value, IntervalOf(calls[j]).value, p)
  }

  lemma NewHasNoTimer(paused: bool, hidden: bool)
    ensures NewPoll(paused, hidden).timer.None? && NewPoll(paused, hidden).failures == 0
      && NewPoll(paused, hidden).retryDelay == 0
  {
  }

  /**
   Whenever a poller has a timer, some call armed it for the longest of three delays: the interval that call read, the
   retry delay and the backoff the poller still remembers.
   */
  lemma {:induction false} TimerIsLongest(paused: bool, hidden: bool, calls: seq<Call>)
    requires After(NewPoll(paused, hidden), calls).timer.Some?
    ensures exists j :: ArmedAt(After(NewPoll(paused, hidden), calls), calls, j)
  {
    hide Next, NewPoll, PollOk, Longest;
    NewHasNoTimer(paused, hidden);
    var front, n := calls[..|calls| - 1], |calls| - 1;
    var p, q := After(NewPoll(paused, hidden), front), After(NewPoll(paused, hidden), calls);
    NewPollOk(paused, hidden);
    RunOk(NewPoll(paused, hidden), front);
    StepArms(p, calls[n]);
    if q.timer == p.timer && q.failures == p.failures && q.retryDelay == p.retryDelay {
      TimerIsLongest(paused, hidden, front);
      var j: nat :| ArmedAt(p, front, j);
      SameMemory(p, q, calls[j]);
      assert ArmedAt(q, calls, j);
    } else {
      assert ArmedAt(q, calls, n);
    }
  }

  lemma SameMemory(p: Poll, q: Poll, c: Call)
    requires q.timer == p.timer && q.failures == p.failures && q.retryDelay == p.retryDelay
    requires p.timer.Some? && IntervalOf(c).Some? && Longest(p.timer.value, IntervalOf(c).value, p)
    ensures Longest(q.timer.value, IntervalOf(c).value, q)
  {
  }

  // ---------- what a poller remembers ----------

  /** The outcomes that reached a callback, in order. */
  function Delivered(p: Poll, calls: seq<Call>): seq<Outcome>
  {
    if calls == [] then []
    else
      var front, last := calls[..|calls| - 1], calls[|calls| - 1];
      Delivered(p, front)
        + if last.RequestSettles? && Delivers(After(p, front), last.outcome) then [last.outcome] else []
  }

  /** The failures since the last data. */
  function FailuresIn(outcomes: seq<Outcome>): nat
  {
    if outcomes == [] then 0
    else
      match outcomes[|outcomes| - 1]
      case Data => 0
      case Unauthorized => FailuresIn(outcomes[..|outcomes| - 1])
      case Failure(_) => FailuresIn(outcomes[..|outcomes| - 1]) + 1
  }

  /** What the last failure since the last data asked to wait. */
  function RetryIn(outcomes: seq<Outcome>): nat
  {
    if outcomes == [] then 0
    else
      match outcomes[|outcomes| - 1]
      case Data => 0
      case Unauthorized => RetryIn(outcomes[..|outcomes| - 1])
      case Failure(retryAfterMs) => retryAfterMs
  }

  lemma StepRemembers(p: Poll, c: Call)
    ensures var q := Next(p, c);
      if c.RequestSettles? && Delivers(p, c.outcome) then
        match c.outcome
        case Data => q.failures == 0 && q.retryDelay == 0
        case Unauthorized => q.failures == p.failures && q.retryDelay == p.retryDelay && q.disposed
        case Failure(retryAfterMs) => q.failures == p.failures + 1 && q.retryDelay == retryAfterMs
      else q.failures == p.failures && q.retryDelay == p.retryDelay
  {
  }

  /**
   A poller remembers exactly the failures delivered since the last data, and the delay the last of them asked for.
   */
  lemma {:induction false} RemembersFailures(paused: bool, hidden: bool, calls: seq<Call>)
    ensures var p, outcomes := After(NewPoll(paused, hidden), calls), Delivered(NewPoll(paused, hidden), calls);
      p.failures == FailuresIn(outcomes) && p.retryDelay == RetryIn(outcomes)
  {
    hide Next, NewPoll, Delivers;
    NewHasNoTimer(paused, hidden);
    if calls != [] {
      var front, last := calls[..|calls| - 1], calls[|calls| - 1];
      RemembersFailures(paused, hidden, front);
      StepRemembers(After(NewPoll(paused, hidden), front), last);
      var before := Delivered(NewPoll(paused, hidden), front);
      assert before + [] == before;
      if last.RequestSettles? { assert (before + [last.outcome])[..|before|] == before; }
    }
  }

  // ---------- when a request begins ----------

  predicate Enabled(p: Poll) { !p.disposed && !p.paused && !p.hidden }

  /** The call invalidates what the poller has: invalidate itself, resuming with a refresh, or showing the page. */
  predicate Invalidates(p: Poll, c: Call)
  {
    match c
    case CallInvalidate => Enabled(p)
    case CallSetPaused(value, refreshOnResume, interval) =>
      p.paused && !value && refreshOnResume && !p.disposed && !p.hidden
    case CallSetHidden(value) => p.hidden && !value && !p.disposed && !p.paused
    case _ => false
  }

  predicate Begins(p: Poll, c: Call)
  {
    Next(p, c).active.Some? && (p.active.None? || Next(p, c).active.value.run != p.active.value.run)
  }

  /**
   A call begins a request exactly when none is active and it is a refresh that the poller is not too paused, hidden or
   disposed for, an invalidation, a timer that fires, or the end of a request during which a refresh was asked for.
   */
  lemma BeginsExactly(p: Poll, c: Call)
    requires PollOk(p)
    ensures Begins(p, c) <==>
      && p.active.None?
      && (Invalidates(p, c)
        || (c.CallRefresh? && !p.disposed && !p.hidden && (!p.paused || c.force))
        || (c == TimerFires && p.timer.Some? && Enabled(p))
        || (c.PollingResumes? && p.stage == Released && p.refreshWhenIdle && Enabled(p)))
  {
  }

  /** The calls that end what the poller is doing: cancel, dispose, and pausing or hiding it. */
  predicate Ends(p: Poll, c: Call)
  {
    match c
    case CallCancel => true
    case CallDispose => true
    case CallSetPaused(value, _, _) => value && !p.paused && !p.disposed
    case CallSetHidden(value) => value && !p.hidden && !p.disposed
    case _ => false
  }

  /** Such a call takes the timer away, aborts the active request and leaves its generation behind. */
  lemma EndingStopsEverything(p: Poll, c: Call)
    requires Ends(p, c)
    ensures var q := Next(p, c);
      && q.timer.None? && q.generation == p.generation + 1
      && q.active == (if p.active.Some? then Some(Request(p.active.value.run, true)) else None)
      && (c == CallDispose ==> q.disposed) && (c.CallSetPaused? ==> q.paused) && (c.CallSetHidden? ==> q.hidden)
  {
  }

  /** The call asks for a refresh while a request is active: it is aborted and the refresh owed. */
  predicate Asks(p: Poll, c: Call) { p.active.Some? && Invalidates(p, c) }

  /** Polling resumes beside a request that began after the slot was released: the owed refresh finds it active. */
  predicate Forgets(p: Poll, c: Call) { c.PollingResumes? && p.stage == Released && p.active.Some? && Enabled(p) }

  lemma StepOwes(p: Poll, c: Call)
    requires PollOk(p)
    ensures Next(p, c).refreshWhenIdle <==> Asks(p, c) || (p.refreshWhenIdle && !Begins(p, c) && !Forgets(p, c))
    ensures Asks(p, c) ==> Next(p, c).active == Some(Request(p.active.value.run, true))
  {
  }

  /** Call j asked for a refresh, and since then none has begun or been forgotten. */
  ghost predicate OwedSince(p: Poll, calls: seq<Call>, j: nat)
  {
    && j < |calls| && Asks(After(p, calls[..j]), calls[j])
    && forall l ::
      j < l < |calls| ==> !Begins(After(p, calls[..l]), calls[l]) && !Forgets(After(p, calls[..l]), calls[l])
  }

  ghost predicate Owed(p: Poll, calls: seq<Call>) { exists j :: OwedSince(p, calls, j) }

  lemma OwedMore(p: Poll, calls: seq<Call>)
    requires calls != []
    ensures var front, n := calls[..|calls| - 1], |calls| - 1;
      Owed(p, calls) <==>
        || Asks(After(p, front), calls[n])
        || (Owed(p, front) && !Begins(After(p, front), calls[n]) && !Forgets(After(p, front), calls[n]))
  {
    hide After, Asks, Begins, Forgets;
    var front, n := calls[..|calls| - 1], |calls| - 1;
    assert calls[..n] == front;
    forall l | 0 <= l < n ensures front[..l] == calls[..l] && front[l] == calls[l] { }
    if Owed(p, calls) {
      var j: nat :| OwedSince(p, calls, j);
      if j < n { assert OwedSince(p, front, j); }
    }
    if Asks(After(p, front), calls[n]) { assert OwedSince(p, calls, n); }
    if Owed(p, front) && !Begins(After(p, front), calls[n]) && !Forgets(After(p, front), calls[n]) {
      var j: nat :| OwedSince(p, front, j);
      assert OwedSince(p, calls, j);
    }
  }

  /**
   A poller owes a refresh exactly when one was asked for while a request was active and since then none has begun, nor
   has polling resumed beside a request that began after the slot was released.
   */
  lemma {:induction false} RefreshIsOwedExactly(paused: bool, hidden: bool, calls: seq<Call>)
    ensures After(NewPoll(paused, hidden), calls).refreshWhenIdle <==> Owed(NewPoll(paused, hidden), calls)
  {
    hide Next, NewPoll, Asks, Begins, Forgets, PollOk, Owed;
    NewPollOk(paused, hidden);
    if calls == [] {
      NothingOwed(paused, hidden);
    } else {
      var front := calls[..|calls| - 1];
      RefreshIsOwedExactly(paused, hidden, front);
      RunOk(NewPoll(paused, hidden), front);
      StepOwes(After(NewPoll(paused, hidden), front), calls[|calls| - 1]);
      OwedMore(NewPoll(paused, hidden), calls);
    }
  }

  lemma NothingOwed(paused: bool, hidden: bool)
    ensures !NewPoll(paused, hidden).refreshWhenIdle && !Owed(NewPoll(paused, hidden), [])
  {
  }

  /**
   Where a refresh is forgotten: between the release of the slot and the resumption of polling one call refreshes and
   the next invalidates. The second request is aborted, and no refresh is owed for it.
   */
  lemma RefreshCanBeForgotten()
    ensures var p := After(NewPoll(false, false),
      [RequestSettles(Data), SlotIsReleased, CallRefresh(false), CallInvalidate, PollingResumes(1000)]);
      p.active == Some(Request(2, true)) && !p.refreshWhenIdle && Enabled(p)
  {
    AfterFive(NewPoll(false, false), RequestSettles(Data), SlotIsReleased, CallRefresh(false), CallInvalidate,
      PollingResumes(1000));
  }

  lemma AfterFive(p: Poll, a: Call, b: Call, c: Call, d: Call, e: Call)
    ensures After(p, [a, b, c, d, e]) == Next(Next(Next(Next(Next(p, a), b), c), d), e)
  {
    hide Next;
    var calls := [a, b, c, d, e];
    assert calls[..4][..3] == calls[..3] && calls[..3][..2] == calls[..2] && calls[..2][..1] == calls[..1];
    assert calls[..1][..0] == [];
    assert After(p, calls[..1]) == Next(p, a);
    assert After(p, calls[..2]) == Next(Next(p, a), b);
    assert After(p, calls[..4]) == Next(Next(After(p, calls[..2]), c), d);
  }
}
