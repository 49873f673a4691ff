/**
 internal/web/ws.go: how the hub gathers repair requests. All readers that ask between two flushes share
 one fresh snapshot. Times are readings of a clock that does not go back, in milliseconds.
 */
module ResyncHub {
  import opened Common

  const PERIOD := 250
  const SHORTEST := 10

  /** asked remembers when each pending client asked first; due is the time the armed timer fires. */
  datatype Hub = Hub(asked: map<nat, int>, due: Option<int>, lastFlush: Option<int>, closing: bool, clock: int)

  /** prepared says that a flush got its snapshot ready before the hub closed. */
  datatype Event = Request(client: nat) | Flush(prepared: bool) | Leave(client: nat) | ShutDown

  const NEW_HUB := Hub(map[], None, None, false, 0)

  /** The delay requestResync arms the timer with. */
  function ArmDelay(lastFlush: Option<int>, now: int): int
  {
    if lastFlush.None? then SHORTEST else Max(SHORTEST, lastFlush.value + PERIOD - now)
  }

  /** requestResync */
  function RequestResync(h: Hub, client: nat): Hub
  {
    if h.closing then h else
      var asked := if client in h.asked then h.asked else h.asked[client := h.clock];
      h.(asked := asked, due := if h.due.Some? then h.due else Some(h.clock + ArmDelay(h.lastFlush, h.clock)))
  }

  /** Whether the armed timer fires at the hub's clock. */
  predicate Fires(h: Hub) { !h.closing && h.due.Some? && h.clock >= h.due.value }

  /** flushResync, run by the timer: it takes the requests, then prepares the snapshot for those who asked. */
  function FlushResync(h: Hub, prepared: bool): (Hub, set<nat>)
  {
    if !Fires(h) then (h, {})
    else (h.(asked := map[], lastFlush := Some(h.clock), due := None), if prepared then h.asked.Keys else {})
  }

  function Next(h: Hub, e: Event, now: int): (Hub, set<nat>)
  {
    var t := h.(clock := Max(h.clock, now));
    match e
    case Request(client) => (RequestResync(t, client), {})
    case Flush(prepared) => FlushResync(t, prepared)
    case Leave(client) => (t.(asked := t.asked - {client}), {})
    case ShutDown => (t.(asked := map[], closing := true, due := None), {})
  }

  function After(events: seq<(Event, int)>): Hub
  {
    if events == [] then NEW_HUB
      else Next(After(events[..|events| - 1]), events[|events| - 1].0, events[|events| - 1].1).0
  }

  /** Pending clients have a timer; it keeps its distance to the last flush and to the first request. */
  ghost predicate HubOk(h: Hub)
  {
    && (h.closing ==> h.asked == map[] && h.due.None?)
    && (h.asked != map[] ==> h.due.Some?)
    && (h.lastFlush.Some? ==> h.lastFlush.value <= h.clock)
    && (h.due.Some? && h.lastFlush.Some? ==> h.due.value >= h.lastFlush.value + PERIOD)
    && (h.due.Some? ==> forall c :: c in h.asked ==> h.due.value <= h.asked[c] + PERIOD && h.asked[c] <= h.clock)
    && (h.due.Some? ==> h.due.value <= h.clock + PERIOD)
  }

  lemma NextKeepsOk(h: Hub, e: Event, now: int)
    requires HubOk(h)
    ensures HubOk(Next(h, e, now).0)
  {
    var t := h.(clock := Max(h.clock, now));
    if e.Leave? { assert t.asked == map[] ==> t.asked - {e.client} == map[]; }
  }

  lemma {:induction false} RunOk(events: seq<(Event, int)>)
    ensures HubOk(After(events))
  {
    if events != [] {
      RunOk(events[..|events| - 1]);
      NextKeepsOk(After(events[..|events| - 1]), events[|events| - 1].0, events[|events| - 1].1);
    }
  }

  /** A client that asked and neither left nor was answered has a timer armed, due within a period of its request. */
  lemma RequestIsBounded(events: seq<(Event, int)>, client: nat)
    requires client in After(events).asked
    ensures After(events).due.Some? && After(events).due.value <= After(events).asked[client] + PERIOD
  {
    RunOk(events);
    assert After(events).asked != map[];
    hide After;
  }

  /**
   A request ends unanswered if and only if its client leaves, the hub shuts down, or the timer fires and the snapshot
   cannot be prepared: the requests were taken by then and nobody puts them back.
   */
  lemma RequestIsLostExactly(h: Hub, e: Event, now: int, client: nat)
    requires client in h.asked
    ensures var (u, answered) := Next(h, e, now);
      client !in u.asked && client !in answered <==>
        e == Leave(client) || e == ShutDown || (e == Flush(false) && Fires(h.(clock := Max(h.clock, now))))
  {
    var t := h.(clock := Max(h.clock, now));
    match e
    case Request(other) => assert client in RequestResync(t, other).asked;
    case Flush(prepared) => assert client in FlushResync(t, true).1 || client in FlushResync(t, true).0.asked;
    case Leave(other) =>
    case ShutDown =>
  }

  /** One client asks, the timer fires, the snapshot cannot be prepared: nobody is answered and no timer is left. */
  lemma RequestCanBeLost()
    ensures var h := After([(Request(0), 0)]); var (u, answered) := Next(h, Flush(false), SHORTEST);
      0 in h.asked && answered == {} && u.asked == map[] && u.due.None?
  {
    var events := [(Request(0), 0)];
    assert events[..0] == [] && After([]) == NEW_HUB;
    assert After(events) == Next(NEW_HUB, Request(0), 0).0;
  }

  /** A request that the timer finds is answered by it, as long as the snapshot can be prepared. */
  lemma RequestIsAnswered(events: seq<(Event, int)>, now: int, client: nat)
    requires client in After(events).asked && now >= After(events).asked[client] + PERIOD
    ensures client in Next(After(events), Flush(true), now).1
  {
    RequestIsBounded(events, client);
    RunOk(events);
    hide After;
  }

  /**
   The request that arms the timer has it fire ten milliseconds later or a quarter of a second after the last flush,
   whichever is later; a timer that is armed is not moved, and a client that asks again keeps its place.
   */
  lemma TimerIsArmedOnce(h: Hub, client: nat, now: int)
    requires !h.closing
    ensures var clock, u := Max(h.clock, now), Next(h, Request(client), now).0;
      && client in u.asked && u.asked.Keys == h.asked.Keys + {client}
      && (forall c :: c in h.asked ==> u.asked[c] == h.asked[c]) && (client !in h.asked ==> u.asked[client] == clock)
      && (h.due.Some? ==> u.due == h.due)
      && (h.due.None? ==> u.due.Some? && u.due.value >= clock + 10)
      && (h.due.None? && h.lastFlush.Some? ==> u.due.value >= h.lastFlush.value + 250)
      && (h.due.None? && u.due.value > clock + 10 ==> h.lastFlush.Some? && u.due.value == h.lastFlush.value + 250)
  {
  }

  /** A timer that fires takes all the requests and notes the time; whether they are answered is up to the snapshot. */
  lemma FlushTakesAll(h: Hub, prepared: bool, now: int)
    ensures var clock, (u, answered) := Max(h.clock, now), Next(h, Flush(prepared), now);
      if !h.closing && h.due.Some? && clock >= h.due.value
      then u == h.(asked := map[], due := None, lastFlush := Some(clock), clock := clock)
        && answered == if prepared then h.asked.Keys else {}
      else u == h.(clock := clock) && answered == {}
  {
  }

  /** Snapshots for repairs are at least a period apart, however many readers ask. */
  lemma FlushesKeepTheirDistance(events: seq<(Event, int)>, now: int)
    requires After(events).lastFlush.Some? && Next(After(events), Flush(true), now).1 != {}
    ensures Max(After(events).clock, now) >= After(events).lastFlush.value + PERIOD
  {
    RunOk(events);
    hide After;
  }

  /** The repair fields of the hub, as requestResync and flushResync update them under their lock. */
  class ResyncQueue {
    var asked: map<nat, int>
    var due: Option<int>
    var lastFlush: Option<int>
    var closing: bool
    ghost var clock: int

    ghost function State(): Hub
      reads this
    {
      Hub(asked, due, lastFlush, closing, clock)
    }

    constructor ()
      ensures State() == NEW_HUB
    {
      asked, due, lastFlush, closing, clock := map[], None, None, false, 0;
    }

    method Ask(client: nat, now: int)
      requires now >= clock
      modifies this
      ensures State() == Next(old(State()), Request(client), now).0
    {
      clock := now;
      if closing { return; }
      if client !in asked { asked := asked[client := now]; }
      if due.Some? { return; }
      var delay := if lastFlush.None? then SHORTEST else lastFlush.value + PERIOD - now;
      if delay < SHORTEST { delay := SHORTEST; }
      due := Some(now + delay);
    }

    /** prepared is what becomes of the snapshot once the lock is given back. */
    method TimerFires(now: int, prepared: bool) returns (answered: set<nat>)
      requires now >= clock && due.Some? && now >= due.value
      modifies this
      ensures (State(), answered) == Next(old(State()), Flush(prepared), now)
    {
      clock := now;
      if closing { return {}; }
      var pending := asked.Keys;
      asked := map[];
      lastFlush := Some(now);
      due := None;
      if pending == {} || !prepared { return {}; }
      answered := pending;
    }
  }
}
