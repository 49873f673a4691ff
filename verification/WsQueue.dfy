/**
 internal/web/ws_queue.go: the bounded queue of one stream client. Times are readings of the server
 clock in nanoseconds; a closed wake channel slot is a flag.
 */
module WsQueue {
  import opened Common

  const QUEUE_MESSAGES := 256
  const QUEUE_BYTES := 0x40_0000
  const QUEUE_MAX_AGE := 2_000_000_000

  const STATE_SNAPSHOT := "state.snapshot"
  const CONTEXT_SNAPSHOT := "context.snapshot"
  const PONG := "pong"

  /**
   What an envelope says, as far as the stream cares: epoch is the server epoch inside a snapshot,
   valid says that the browser accepts the payload as a baseline.
   */
  datatype Message = Message(kind: string, epoch: string, valid: bool, contextCapable: bool, body: string)

  datatype Frame = Frame(msg: Message, seqNo: nat, size: nat, queuedAt: int)

  datatype Queue = Queue(
    pending: seq<Frame>,
    queuedBytes: int,
    lastSeq: nat,
    queueLimit: int,
    overloadedAt: Option<int>,
    closed: bool,
    woken: bool)

  datatype Offered = Offered(queue: Queue, ok: bool)

  // ---------- steps ----------

  function Limit(q: Queue): int { if q.queueLimit <= 0 then QUEUE_MESSAGES else q.queueLimit }

  function Bytes(frames: seq<Frame>): int { if frames == [] then 0 else frames[0].size + Bytes(frames[1..]) }

  predicate IsBaseline(f: Frame) { f.seqNo == 1 && f.msg.kind == STATE_SNAPSHOT }

  predicate Supersedes(q: Queue, m: Message, size: nat)
  {
    && q.pending != [] && (m.kind == STATE_SNAPSHOT || m.kind == CONTEXT_SNAPSHOT)
    && var prev := q.pending[|q.pending| - 1];
    && prev.msg.kind == m.kind && prev.seqNo != 1 && q.queuedBytes - prev.size + size <= QUEUE_BYTES
  }

  function Supersede(q: Queue, m: Message, size: nat): Queue
    requires q.pending != []
  {
    var n := |q.pending|;
    var prev := q.pending[n - 1];
    q.(pending := q.pending[n - 1 := prev.(msg := m, size := size)], queuedBytes := q.queuedBytes - prev.size + size)
  }

  /** removeFirstLocked */
  function RemoveFirst(q: Queue): Queue
    requires q.pending != []
  {
    q.(pending := q.pending[1..], queuedBytes := q.queuedBytes - q.pending[0].size)
  }

  predicate Fits(q: Queue, size: nat) { |q.pending| < Limit(q) && q.queuedBytes + size <= QUEUE_BYTES }

  /**
   The drop loop: oldest frames leave until the new one fits, unless the first baseline is in the way or overload
   lasts.
   */
  function DropFor(q: Queue, size: nat, now: int): Offered
    requires Accounted(q) && size <= QUEUE_BYTES
    decreases |q.pending|
  {
    if Fits(q, size) then Offered(q, true)
    else if IsBaseline(q.pending[0]) then Offered(q, false)
    else
      var since := if q.overloadedAt.None? then now else q.overloadedAt.value;
      var next := RemoveFirst(q).(overloadedAt := Some(since));
      if now - since > QUEUE_MAX_AGE then Offered(next, false) else DropFor(next, size, now)
  }

  predicate TooLate(q: Queue, now: int) { q.pending != [] && now - q.pending[0].queuedAt > QUEUE_MAX_AGE }

  /** queueLocked */
  function Offer(q: Queue, m: Message, size: nat, now: int): Offered
    requires Accounted(q)
  {
    if q.closed || size > QUEUE_BYTES || TooLate(q, now) then Offered(q, false)
    else if Supersedes(q, m, size) then Offered(Supersede(q, m, size), true)
    else
      var numbered := q.(lastSeq := q.lastSeq + 1);
      var room := DropFor(numbered, size, now);
      if !room.ok then room else
        var r := room.queue;
        Offered(r.(pending := r.pending + [Frame(m, q.lastSeq + 1, size, now)], queuedBytes := r.queuedBytes + size,
          woken := true), true)
  }

  /** dequeue */
  function Dequeue(q: Queue): (Queue, Option<Frame>)
  {
    if q.pending == [] || q.closed then (q, None) else
      var rest := RemoveFirst(q);
      var calm := |rest.pending| < QUEUE_MESSAGES / 2 && rest.queuedBytes < QUEUE_BYTES / 2;
      (if calm then rest.(overloadedAt := None) else rest, Some(q.pending[0]))
  }

  /** signalClose */
  function Close(q: Queue): Queue { if q.closed then q else q.(closed := true, pending := [], queuedBytes := 0) }

  function NewQueue(limit: int): Queue { Queue([], 0, 0, limit, None, false, false) }

  // ---------- invariant ----------

  ghost predicate Accounted(q: Queue) { q.queuedBytes == Bytes(q.pending) }

  ghost predicate Increasing(frames: seq<Frame>)
  {
    forall i, j :: 0 <= i < j < |frames| ==> frames[i].seqNo < frames[j].seqNo
  }

  ghost predicate QueueOk(q: Queue)
  {
    && Accounted(q) && q.queuedBytes <= QUEUE_BYTES && |q.pending| <= Limit(q)
    && Increasing(q.pending) && (forall i :: 0 <= i < |q.pending| ==> 1 <= q.pending[i].seqNo <= q.lastSeq)
    && (q.closed ==> q.pending == [])
  }

  lemma {:induction false} BytesAppend(frames: seq<Frame>, f: Frame)
    ensures Bytes(frames + [f]) == Bytes(frames) + f.size
  {
    if frames == [] {
      assert frames + [f] == [f];
    } else {
      BytesAppend(frames[1..], f);
      assert (frames + [f])[1..] == frames[1..] + [f];
    }
  }

  lemma {:induction false} BytesNonNegative(frames: seq<Frame>)
    ensures Bytes(frames) >= 0
  {
    if frames != [] { BytesNonNegative(frames[1..]); }
  }

  /** Without pending frames any admissible size fits, so the drop loop never looks at an empty queue. */
  lemma EmptyFits(q: Queue, size: nat)
    requires Accounted(q) && size <= QUEUE_BYTES && q.pending == []
    ensures Fits(q, size)
  {
  }

  lemma RemoveFirstOk(q: Queue)
    requires QueueOk(q) && q.pending != []
    ensures QueueOk(RemoveFirst(q))
  {
    BytesNonNegative(q.pending[1..]);
  }

  /** What dropping leaves: a suffix of the queue, in which the frame fits if the loop succeeded. */
  ghost predicate Suffix(q: Queue, r: Queue)
  {
    && |r.pending| <= |q.pending| && r.pending == q.pending[|q.pending| - |r.pending|..]
    && r.lastSeq == q.lastSeq && r.queueLimit == q.queueLimit && r.closed == q.closed && r.woken == q.woken
    && (q.pending != [] && IsBaseline(q.pending[0]) ==> r == q)
  }

  lemma SuffixSelf(q: Queue)
    ensures Suffix(q, q)
  {
  }

  lemma OneDropped(q: Queue, since: Option<int>)
    requires QueueOk(q) && q.pending != [] && !IsBaseline(q.pending[0])
    ensures var next := RemoveFirst(q).(overloadedAt := since);
      QueueOk(next) && Accounted(next) && Suffix(q, next) && |next.pending| < |q.pending|
  {
    RemoveFirstOk(q);
    hide Bytes;
  }

  lemma {:induction false} DropForFacts(q: Queue, size: nat, now: int)
    requires QueueOk(q) && size <= QUEUE_BYTES
    ensures var room := DropFor(q, size, now);
      Suffix(q, room.queue) && QueueOk(room.queue) && (room.ok ==> Fits(room.queue, size))
    decreases |q.pending|
  {
    assert Accounted(q);
    if q.pending == [] { EmptyFits(q, size); }
    hide QueueOk, Suffix, Fits, Accounted, IsBaseline, RemoveFirst;
    SuffixSelf(q);
    if !Fits(q, size) && !IsBaseline(q.pending[0]) {
      var since := if q.overloadedAt.None? then now else q.overloadedAt.value;
      var next := RemoveFirst(q).(overloadedAt := Some(since));
      OneDropped(q, Some(since));
      if now - since <= QUEUE_MAX_AGE {
        DropForFacts(next, size, now);
        SuffixOfTail(q, next, DropFor(next, size, now).queue);
      }
    }
  }

  lemma SuffixOfTail(q: Queue, next: Queue, r: Queue)
    requires q.pending != [] && !IsBaseline(q.pending[0]) && next == RemoveFirst(q).(overloadedAt := next.overloadedAt)
    requires Suffix(next, r)
    ensures Suffix(q, r)
  {
    assert q.pending[1..][|q.pending| - 1 - |r.pending|..] == q.pending[|q.pending| - |r.pending|..];
  }

  lemma SupersedeBytes(q: Queue, m: Message, size: nat)
    requires Accounted(q) && q.pending != []
    ensures Accounted(Supersede(q, m, size))
  {
    var n := |q.pending|;
    var front, prev := q.pending[..n - 1], q.pending[n - 1];
    var next := prev.(msg := m, size := size);
    assert q.pending == front + [prev];
    assert q.pending[n - 1 := next] == front + [next];
    BytesAppend(front, prev);
    BytesAppend(front, next);
  }

  lemma SupersedeOk(q: Queue, m: Message, size: nat)
    requires QueueOk(q) && Supersedes(q, m, size)
    ensures QueueOk(Supersede(q, m, size))
  {
    SupersedeBytes(q, m, size);
    hide Accounted, Bytes;
  }

  lemma AppendOk(q: Queue, r: Queue, m: Message, size: nat, now: int)
    requires QueueOk(r) && Fits(r, size) && r.lastSeq == q.lastSeq + 1 && !r.closed
    requires forall i :: 0 <= i < |r.pending| ==> r.pending[i].seqNo <= q.lastSeq
    ensures QueueOk(r.(pending := r.pending + [Frame(m, q.lastSeq + 1, size, now)], queuedBytes := r.queuedBytes + size,
      woken := true))
  {
    BytesAppend(r.pending, Frame(m, q.lastSeq + 1, size, now));
  }

  lemma KeptBefore(q: Queue, numbered: Queue, r: Queue)
    requires QueueOk(q) && numbered == q.(lastSeq := q.lastSeq + 1) && Suffix(numbered, r)
    ensures forall i :: 0 <= i < |r.pending| ==> r.pending[i].seqNo <= q.lastSeq
  {
    hide Accounted;
    forall i | 0 <= i < |r.pending| ensures r.pending[i].seqNo <= q.lastSeq {
      assert r.pending[i] == q.pending[|q.pending| - |r.pending| + i];
    }
  }

  lemma NumberedOk(q: Queue)
    requires QueueOk(q)
    ensures QueueOk(q.(lastSeq := q.lastSeq + 1)) && Accounted(q.(lastSeq := q.lastSeq + 1))
  {
  }

  /**
   Offering keeps the accounting, the byte and message bounds and the order of numbers, whatever the
   queue does with the frame.
   */
  lemma OfferKeepsOk(q: Queue, m: Message, size: nat, now: int)
    requires QueueOk(q)
    ensures QueueOk(Offer(q, m, size, now).queue)
  {
    hide QueueOk, Supersede, DropFor;
    if q.closed || size > QUEUE_BYTES || TooLate(q, now) {
    } else if Supersedes(q, m, size) {
      SupersedeOk(q, m, size);
    } else {
      NumberedKeepsOk(q, m, size, now);
    }
  }

  /** Offer past its early exits. */
  lemma NumberedOffer(q: Queue, m: Message, size: nat, now: int)
    requires QueueOk(q) && !(q.closed || size > QUEUE_BYTES || TooLate(q, now) || Supersedes(q, m, size))
    ensures QueueOk(q.(lastSeq := q.lastSeq + 1)) && Accounted(q.(lastSeq := q.lastSeq + 1))
    ensures var room := DropFor(q.(lastSeq := q.lastSeq + 1), size, now);
      Offer(q, m, size, now) == if !room.ok then room else
        Offered(room.queue.(pending := room.queue.pending + [Frame(m, q.lastSeq + 1, size, now)],
          queuedBytes := room.queue.queuedBytes + size, woken := true), true)
  {
    NumberedOk(q);
    hide DropFor, QueueOk, Accounted, Fits;
  }

  lemma NumberedKeepsOk(q: Queue, m: Message, size: nat, now: int)
    requires QueueOk(q) && !(q.closed || size > QUEUE_BYTES || TooLate(q, now) || Supersedes(q, m, size))
    ensures QueueOk(Offer(q, m, size, now).queue)
  {
    hide *;
    var numbered := q.(lastSeq := q.lastSeq + 1);
    NumberedOffer(q, m, size, now);
    var room := DropFor(numbered, size, now);
    DropForFacts(numbered, size, now);
    if room.ok {
      KeptBefore(q, numbered, room.queue);
      SuffixFields(numbered, room.queue);
      AppendOk(q, room.queue, m, size, now);
    }
  }

  lemma SuffixFields(q: Queue, r: Queue)
    requires Suffix(q, r)
    ensures r.lastSeq == q.lastSeq && r.queueLimit == q.queueLimit && r.closed == q.closed && r.woken == q.woken
  {
  }

  lemma DequeueKeepsOk(q: Queue)
    requires QueueOk(q)
    ensures QueueOk(Dequeue(q).0)
  {
    if q.pending != [] && !q.closed { RemoveFirstOk(q); }
  }

  /** The frame took the number of the snapshot it replaces. */
  ghost predicate Replaced(q: Queue, r: Queue, m: Message, size: nat)
  {
    && q.pending != [] && r == Supersede(q, m, size) && !q.closed
    && q.pending[|q.pending| - 1].seqNo != 1 && q.pending[|q.pending| - 1].msg.kind == m.kind
  }

  /** The frame took the next number, behind what was kept of the queue. */
  ghost predicate Appended(q: Queue, r: Queue, m: Message, size: nat, now: int, kept: seq<Frame>)
  {
    && !q.closed && !r.closed && r.woken && r.lastSeq == q.lastSeq + 1
    && r.pending == kept + [Frame(m, q.lastSeq + 1, size, now)]
    && |kept| <= |q.pending| && kept == q.pending[|q.pending| - |kept|..]
    && (q.pending != [] && IsBaseline(q.pending[0]) ==> kept == q.pending)
  }

  /** The frame took the next number and was lost. */
  ghost predicate Lost(q: Queue, r: Queue)
  {
    Suffix(q.(lastSeq := q.lastSeq + 1), r)
  }

  /** The frame an accepted, numbered offer keeps in front of the new one. */
  ghost function KeptBy(q: Queue, size: nat, now: int): seq<Frame>
    requires QueueOk(q) && size <= QUEUE_BYTES
  {
    DropFor(q.(lastSeq := q.lastSeq + 1), size, now).queue.pending
  }

  lemma AppendedOffer(q: Queue, m: Message, size: nat, now: int)
    requires QueueOk(q) && !(q.closed || size > QUEUE_BYTES || TooLate(q, now) || Supersedes(q, m, size))
    ensures var r := Offer(q, m, size, now);
      if r.ok then Appended(q, r.queue, m, size, now, KeptBy(q, size, now)) else Lost(q, r.queue)
  {
    var numbered := q.(lastSeq := q.lastSeq + 1);
    NumberedOffer(q, m, size, now);
    DropForFacts(numbered, size, now);
    assert KeptBy(q, size, now) == DropFor(numbered, size, now).queue.pending;
    hide Offer, DropFor, QueueOk, Accounted, TooLate, Supersedes, Supersede, Fits, KeptBy, IsBaseline;
  }

  /** How an offer ends, without the loop: refused outright, replacing a snapshot, appended, or numbered and lost. */
  lemma OfferCases(q: Queue, m: Message, size: nat, now: int)
    requires QueueOk(q)
    ensures var r := Offer(q, m, size, now);
      || (!r.ok && r.queue == q)
      || (!r.ok && Lost(q, r.queue))
      || (r.ok && Replaced(q, r.queue, m, size))
      || (r.ok && size <= QUEUE_BYTES && Appended(q, r.queue, m, size, now, KeptBy(q, size, now)))
  {
    if q.closed || size > QUEUE_BYTES || TooLate(q, now) || Supersedes(q, m, size) {
      hide DropFor, QueueOk, Accounted, Supersede, TooLate, KeptBy;
    } else {
      AppendedOffer(q, m, size, now);
      hide *;
    }
  }

  // ---------- the queue as the server runs it ----------

  class WsClient {
    var pending: seq<Frame>
    var queuedBytes: int
    var lastSeq: nat
    const queueLimit: int
    var overloadedAt: Option<int>
    var closed: bool
    var woken: bool
    var dropped: nat

    ghost function State(): Queue
      reads this
    {
      Queue(pending, queuedBytes, lastSeq, queueLimit, overloadedAt, closed, woken)
    }

    ghost predicate Valid()
      reads this
    {
      QueueOk(State())
    }

    constructor (limit: int)
      ensures State() == NewQueue(limit) && Valid() && dropped == 0
    {
      pending, queuedBytes, lastSeq, queueLimit, overloadedAt, closed, woken, dropped := [], 0, 0, limit, None, false,
        false, 0;
    }

    method RemoveFirstLocked() returns (f: Frame)
      requires pending != []
      modifies this`pending, this`queuedBytes
      ensures State() == RemoveFirst(old(State())) && f == old(pending[0])
    {
      f := pending[0];
      pending := pending[1..];
      queuedBytes := queuedBytes - f.size;
    }

    /** The drop loop of queueLocked; each round of it counts one dropped frame. */
    method DropLocked(limit: int, size: nat, now: int) returns (ok: bool)
      requires Valid() && size <= QUEUE_BYTES && limit == Limit(State())
      modifies this`pending, this`queuedBytes, this`overloadedAt, this`dropped
      ensures Offered(State(), ok) == DropFor(old(State()), size, now) && Valid()
      ensures dropped - old(dropped) == |old(pending)| - |pending|
    {
      while |pending| >= limit || queuedBytes + size > QUEUE_BYTES
        invariant Valid() && limit == Limit(State())
        invariant DropFor(State(), size, now) == DropFor(old(State()), size, now)
        invariant dropped - old(dropped) == |old(pending)| - |pending|
        decreases |pending|
      {
        if pending == [] { EmptyFits(State(), size); }
        if pending[0].seqNo == 1 && pending[0].msg.kind == STATE_SNAPSHOT { return false; }
        RemoveFirstOk(State());
        var gone := RemoveFirstLocked();
        dropped := dropped + 1;
        if overloadedAt.None? { overloadedAt := Some(now); }
        if now - overloadedAt.value > QUEUE_MAX_AGE { return false; }
      }
      ok := true;
    }

    method QueueLocked(m: Message, size: nat, now: int) returns (ok: bool)
      requires Valid()
      modifies this
      ensures Offered(State(), ok) == Offer(old(State()), m, size, now) && Valid()
    {
      OfferKeepsOk(State(), m, size, now);
      hide DropFor, QueueOk, Supersede;
      if closed { return false; }
      if size > QUEUE_BYTES || (|pending| > 0 && now - pending[0].queuedAt > QUEUE_MAX_AGE) { return false; }
      var n := |pending|;
      if n > 0 && (m.kind == STATE_SNAPSHOT || m.kind == CONTEXT_SNAPSHOT) && pending[n - 1].msg.kind == m.kind
        && pending[n - 1].seqNo != 1 {
        var prev := pending[n - 1];
        if queuedBytes - prev.size + size <= QUEUE_BYTES {
          SupersedeLocked(m, size);
          return true;
        }
      }
      ok := NumberLocked(m, size, now);
    }

    /** queueLocked past its early exits: a new number, room for the frame if there can be any, and the frame. */
    method NumberLocked(m: Message, size: nat, now: int) returns (ok: bool)
      requires Valid() && !closed && size <= QUEUE_BYTES && !TooLate(State(), now) && !Supersedes(State(), m, size)
      modifies this
      ensures Offered(State(), ok) == Offer(old(State()), m, size, now) && Valid()
    {
      NumberedKeepsOk(State(), m, size, now);
      NumberedOffer(State(), m, size, now);
      NumberedOk(State());
      hide DropFor, QueueOk, Offer;
      lastSeq := lastSeq + 1;
      var f := Frame(m, lastSeq, size, now);
      var room := DropLocked(if queueLimit <= 0 then QUEUE_MESSAGES else queueLimit, size, now);
      if !room { return false; }
      AppendLocked(f);
      ok := true;
    }

    /** The newest pending snapshot gives its place to a newer one. */
    method SupersedeLocked(m: Message, size: nat)
      requires pending != []
      modifies this`pending, this`queuedBytes
      ensures State() == Supersede(old(State()), m, size)
    {
      var n := |pending|;
      var prev := pending[n - 1];
      pending := pending[n - 1 := Frame(m, prev.seqNo, size, prev.queuedAt)];
      queuedBytes := queuedBytes + size - prev.size;
    }

    method AppendLocked(f: Frame)
      modifies this`pending, this`queuedBytes, this`woken
      ensures State()
        == old(State()).(pending := old(pending) + [f], queuedBytes := old(queuedBytes) + f.size, woken := true)
    {
      pending := pending + [f];
      queuedBytes := queuedBytes + f.size;
      woken := true;
    }

    method DequeueLocked() returns (f: Option<Frame>)
      requires Valid()
      modifies this
      ensures (State(), f) == Dequeue(old(State())) && Valid()
    {
      DequeueKeepsOk(State());
      if |pending| == 0 || closed { return None; }
      var head := RemoveFirstLocked();
      if |pending| < QUEUE_MESSAGES / 2 && queuedBytes < QUEUE_BYTES / 2 { overloadedAt := None; }
      f := Some(head);
    }

    method SignalClose()
      requires Valid()
      modifies this
      ensures State() == Close(old(State())) && Valid()
    {
      if !closed {
        closed := true;
        pending, queuedBytes := [], 0;
      }
    }
  }
}
