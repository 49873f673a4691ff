/** Exactly what becomes of a frame that is offered to the queue, and of the frames it finds there. */
module QueueLaws {
  import opened Common
  import opened WsQueue

  // ---------- the outcomes ----------

  /** Closed, larger than the whole queue may be, or behind a frame that has waited for more than two seconds. */
  predicate Rejects(q: Queue, size: nat, now: int)
  {
    q.closed || size > 0x40_0000 || (q.pending != [] && now - q.pending[0].queuedAt > 2_000_000_000)
  }

  /** The newest frame is a snapshot of the same kind, not the connection's first, and the bytes allow the exchange. */
  predicate Exchanges(q: Queue, m: Message, size: nat)
  {
    && q.pending != [] && m.kind in {"state.snapshot", "context.snapshot"}
    && var newest := q.pending[|q.pending| - 1];
    && newest.msg.kind == m.kind && newest.seqNo != 1 && q.queuedBytes - newest.size + size <= 0x40_0000
  }

  /** The frames from k on leave room for one of this size. */
  predicate RoomBehind(q: Queue, k: nat, size: nat)
    requires k <= |q.pending|
  {
    && |q.pending| - k < (if q.queueLimit <= 0 then 256 else q.queueLimit)
    && Bytes(q.pending[k..]) + size <= 0x40_0000
  }

  /** Frames may be dropped: the connection's baseline is not in front, and overload has not lasted two seconds. */
  predicate MayDrop(q: Queue, now: int)
  {
    && q.pending != [] && !(q.pending[0].seqNo == 1 && q.pending[0].msg.kind == "state.snapshot")
    && (q.overloadedAt.Some? ==> now - q.overloadedAt.value <= 2_000_000_000)
  }

  function Since(q: Queue, now: int): int { if q.overloadedAt.Some? then q.overloadedAt.value else now }

  /** r is q with its k oldest frames gone and overload noted if there were any. */
  predicate Dropped(q: Queue, r: Queue, k: nat, now: int)
    requires k <= |q.pending|
  {
    r == q.(pending := q.pending[k..], queuedBytes := Bytes(q.pending[k..]),
      overloadedAt := if k == 0 then q.overloadedAt else Some(Since(q, now)))
  }

  // ---------- the drop loop ----------

  lemma FitsIsRoom(q: Queue, size: nat)
    requires Accounted(q)
    ensures Fits(q, size) <==> RoomBehind(q, 0, size)
  {
    assert q.pending[0..] == q.pending;
  }

  lemma OneLess(q: Queue, r: Queue, k: nat, size: nat)
    requires Accounted(q) && q.pending != [] && k < |q.pending| && r.queueLimit == q.queueLimit
    requires r.pending == q.pending[1..]
    ensures r.pending[k..] == q.pending[k + 1..] && RoomBehind(r, k, size) == RoomBehind(q, k + 1, size)
  {
    assert r.pending[k..] == q.pending[k + 1..];
  }

  /** No frame behind another one is the connection's baseline. */
  lemma LaterIsNoBaseline(q: Queue)
    requires QueueOk(q) && |q.pending| > 1
    ensures !IsBaseline(q.pending[1])
  {
    assert q.pending[0].seqNo < q.pending[1].seqNo;
  }

  /**
   The loop succeeds exactly when the frame fits at once or frames may be dropped; then it has dropped as few as needed.
   When it fails, overload has lost one frame, or the baseline none.
   */
  lemma {:induction false} DropExactly(q: Queue, size: nat, now: int) returns (k: nat)
    requires QueueOk(q) && size <= 0x40_0000
    ensures k <= |q.pending| && Dropped(q, DropFor(q, size, now).queue, k, now)
    ensures DropFor(q, size, now).ok <==> RoomBehind(q, 0, size) || MayDrop(q, now)
    ensures DropFor(q, size, now).ok ==>
      RoomBehind(q, k, size) && forall j :: 0 <= j < k ==> !RoomBehind(q, j, size)
    ensures !DropFor(q, size, now).ok ==> k == if IsBaseline(q.pending[0]) then 0 else 1
    decreases |q.pending|, 1
  {
    FitsIsRoom(q, size);
    assert q.pending[0..] == q.pending;
    k := 0;
    if !Fits(q, size) {
      if q.pending == [] { EmptyFits(q, size); }
      if !IsBaseline(q.pending[0]) {
        var since := Since(q, now);
        var next := RemoveFirst(q).(overloadedAt := Some(since));
        OneDropped(q, Some(since));
        k := 1;
        if now - since <= QUEUE_MAX_AGE { k := DropMore(q, next, size, now); }
      }
    }
  }

  lemma DroppedOneMore(q: Queue, next: Queue, r: Queue, k: nat, now: int)
    requires QueueOk(q) && q.pending != [] && next == RemoveFirst(q).(overloadedAt := Some(Since(q, now)))
    requires k < |q.pending| && Dropped(next, r, k, now)
    ensures Dropped(q, r, k + 1, now)
  {
    assert next.pending[k..] == q.pending[k + 1..];
  }

  lemma DropMore(q: Queue, next: Queue, size: nat, now: int) returns (k: nat)
    requires QueueOk(q) && size <= 0x40_0000 && q.pending != [] && !IsBaseline(q.pending[0]) && !Fits(q, size)
    requires next == RemoveFirst(q).(overloadedAt := Some(Since(q, now))) && now - Since(q, now) <= QUEUE_MAX_AGE
    ensures DropFor(q, size, now).ok && 0 < k <= |q.pending| && Dropped(q, DropFor(q, size, now).queue, k, now)
    ensures RoomBehind(q, k, size) && forall j :: 0 <= j < k ==> !RoomBehind(q, j, size)
    decreases |q.pending|, 0
  {
    OneDropped(q, Some(Since(q, now)));
    var inner := DropExactly(next, size, now);
    k := inner + 1;
    assert DropFor(q, size, now) == DropFor(next, size, now);
    if next.pending == [] {
      EmptyFits(next, size);
      FitsIsRoom(next, size);
    } else {
      LaterIsNoBaseline(q);
      assert next.pending[0] == q.pending[1];
    }
    FitsIsRoom(q, size);
    DroppedOneMore(q, next, DropFor(next, size, now).queue, inner, now);
    forall j | 0 <= j <= inner ensures RoomBehind(next, j, size) == RoomBehind(q, j + 1, size) {
      OneLess(q, next, j, size);
    }
    hide RoomBehind, DropFor, Dropped, QueueOk;
    forall j | 0 <= j < k ensures !RoomBehind(q, j, size) {
      if j > 0 { assert RoomBehind(next, j - 1, size) == RoomBehind(q, j - 1 + 1, size); }
    }
  }

  // ---------- offers ----------

  lemma RejectsMeans(q: Queue, size: nat, now: int)
    ensures Rejects(q, size, now) <==> q.closed || size > QUEUE_BYTES || TooLate(q, now)
  {
  }

  lemma ExchangesMeans(q: Queue, m: Message, size: nat)
    ensures Exchanges(q, m, size) <==> Supersedes(q, m, size)
  {
  }

  /** Numbering a frame touches nothing the drop loop looks at. */
  lemma NumberedDrops(q: Queue, r: Queue, k: nat, size: nat, now: int)
    requires k <= |q.pending| && Dropped(q.(lastSeq := q.lastSeq + 1), r, k, now)
    ensures Dropped(q, r.(lastSeq := q.lastSeq), k, now) && r.lastSeq == q.lastSeq + 1
    ensures MayDrop(q.(lastSeq := q.lastSeq + 1), now) == MayDrop(q, now)
    ensures forall j :: 0 <= j <= |q.pending| ==>
      RoomBehind(q.(lastSeq := q.lastSeq + 1), j, size) == RoomBehind(q, j, size)
  {
  }

  /**
   What an offer does. A rejected frame leaves the queue as it is. A snapshot that may takes the place and the number of
   the newest frame. Any other frame takes the next number; it is appended and the writer woken exactly when it fits, or
   fits once as few as possible of the oldest frames are dropped and they may be; otherwise it is lost with at most one
   frame before it.
   */
  lemma OfferExactly(q: Queue, m: Message, size: nat, now: int) returns (k: nat)
    requires QueueOk(q)
    ensures k <= |q.pending|
    ensures var r := Offer(q, m, size, now); var newest := |q.pending| - 1;
      && (Rejects(q, size, now) ==> r == Offered(q, false))
      && (!Rejects(q, size, now) && Exchanges(q, m, size) ==>
            r == Offered(q.(pending := q.pending[newest := q.pending[newest].(msg := m, size := size)],
              queuedBytes := q.queuedBytes - q.pending[newest].size + size), true))
      && (!Rejects(q, size, now) && !Exchanges(q, m, size) ==>
            && (r.ok <==> RoomBehind(q, 0, size) || MayDrop(q, now))
            && (r.ok ==>
                  && RoomBehind(q, k, size) && (forall j :: 0 <= j < k ==> !RoomBehind(q, j, size))
                  && r.queue == q.(pending := q.pending[k..] + [Frame(m, q.lastSeq + 1, size, now)],
                    queuedBytes := Bytes(q.pending[k..]) + size, lastSeq := q.lastSeq + 1, woken := true,
                    overloadedAt := if k == 0 then q.overloadedAt else Some(Since(q, now))))
            && (!r.ok ==>
                  && k == (if q.pending[0].seqNo == 1 && q.pending[0].msg.kind == "state.snapshot" then 0 else 1)
                  && Dropped(q, r.queue.(lastSeq := q.lastSeq), k, now) && r.queue.lastSeq == q.lastSeq + 1))
  {
    k := 0;
    RejectsMeans(q, size, now);
    ExchangesMeans(q, m, size);
    if !Rejects(q, size, now) && !Exchanges(q, m, size) {
      NumberedOffer(q, m, size, now);
      var next := q.(lastSeq := q.lastSeq + 1);
      k := DropExactly(next, size, now);
      NumberedDrops(q, DropFor(next, size, now).queue, k, size, now);
      hide Offer, DropFor, Rejects, Exchanges, RoomBehind, MayDrop, QueueOk;
    } else {
      hide QueueOk, DropFor, RoomBehind, MayDrop;
    }
  }

  /**
   Taking a frame: the oldest leaves an open queue, and the mark of overload with it once fewer than 128 frames and less
   than 2 MiB are left.
   */
  lemma TakeExactly(q: Queue)
    requires QueueOk(q)
    ensures var (r, f) := Dequeue(q);
      && (q.closed || q.pending == [] ==> r == q && f.None?)
      && (!q.closed && q.pending != [] ==>
            && f == Some(q.pending[0])
            && r == q.(pending := q.pending[1..], queuedBytes := Bytes(q.pending[1..]),
              overloadedAt := if |q.pending| - 1 < 128 && Bytes(q.pending[1..]) < 0x20_0000 then None
                else q.overloadedAt))
  {
  }
}
