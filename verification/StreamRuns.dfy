/**
 The stream end to end: the server's queue of one client, a connection that delivers frames in order
 until it breaks, and the browser. A run is any interleaving of the locked sections and events.
 */
module StreamRuns {
  import opened Common
  import opened WsQueue
  import opened WsBrowser

  /**
   ledger holds the last message the server put under each number of this connection; received is the
   number of the last frame the browser was handed on it; waiting says that the writer found the queue
   empty and blocks on the wake channel; refused that an offer failed and the close is still to come.
   */
  datatype Net = Net(
    queue: Queue,
    waiting: bool,
    refused: bool,
    broken: bool,
    ledger: map<nat, Message>,
    channel: seq<Frame>,
    received: nat,
    browser: Browser)

  datatype Move =
    | Reconnect(limit: int, m: Message, size: nat, now: int)
    | ServerOffer(m: Message, size: nat, now: int)
    | ServerClose
    | WriterSend
    | WriterLose
    | WriterWake
    | WriterTick
    | Deliver
    | SocketOpens
    | SocketCloses
    | SocketGone
    | ChangeProfile(profile: Profile)
    | AskRefresh
    | ShutDown

  function NewNet(limit: int): Net { Net(Close(NewQueue(limit)), false, false, false, map[], [], 0, NEW_BROWSER) }

  /** The number an accepted or lost offer leaves its message under. */
  function Record(q: Queue, r: Queue, m: Message, ledger: map<nat, Message>): map<nat, Message>
  {
    if r.lastSeq > q.lastSeq then ledger[r.lastSeq := m]
    else if r.pending != q.pending && r.pending != [] then ledger[r.pending[|r.pending| - 1].seqNo := m]
    else ledger
  }

  function OfferTo(n: Net, m: Message, size: nat, now: int): Net
    requires Accounted(n.queue)
  {
    var r := Offer(n.queue, m, size, now);
    n.(queue := r.queue, refused := n.refused || !r.ok, ledger := Record(n.queue, r.queue, m, n.ledger))
  }

  /** serveWS: the baseline is queued before anything else; a connection that cannot take it is closed. */
  function Register(n: Net, limit: int, m: Message, size: nat, now: int): Net
  {
    var started := Net(NewQueue(limit), false, false, false, map[], [], 0, Connect(n.browser));
    var first := OfferTo(started, m, size, now);
    if first.refused then first.(queue := Close(first.queue), refused := false) else first
  }

  /** One move; a move that is not enabled changes nothing. */
  function Next(n: Net, move: Move): Net
    requires Accounted(n.queue)
  {
    var b := n.browser;
    match move
    case Reconnect(limit, m, size, now) =>
      if b.closed || b.desired == Hidden || m.kind != STATE_SNAPSHOT then n else Register(n, limit, m, size, now)
    case ServerOffer(m, size, now) => OfferTo(n, m, size, now)
    case ServerClose => n.(queue := Close(n.queue))
    case WriterSend =>
      if n.waiting || n.broken then n else
        var (q, f) := Dequeue(n.queue);
        if f.None? then n.(waiting := true) else n.(queue := q, channel := n.channel + [f.value])
    case WriterLose =>
      if n.waiting || n.broken then n else
        var (q, f) := Dequeue(n.queue);
        if f.None? then n else n.(queue := q, broken := true)
    case WriterWake => if n.queue.woken then n.(queue := n.queue.(woken := false), waiting := false) else n
    case WriterTick => n.(waiting := false)
    case Deliver =>
      if n.channel == [] || b.socket == NoSocket || b.socket == Connecting then n
      else n.(channel := n.channel[1..], received := n.channel[0].seqNo, browser := OnMessage(b, n.channel[0]))
    case SocketOpens => n.(browser := OnOpen(b))
    case SocketCloses => n.(browser := StartClosing(b))
    case SocketGone => n.(browser := DropSocket(b))
    case ChangeProfile(profile) => n.(browser := SetProfile(b, profile))
    case AskRefresh => n.(browser := Refresh(b))
    case ShutDown => n.(browser := Shut(b))
  }

  /** Any sequence of moves from a browser that has never connected. */
  ghost function After(moves: seq<Move>): Net
    ensures NetOk(After(moves))
  {
    if moves == [] then
      NewNetOk();
      NewNet(0)
    else
      NextKeepsOk(After(moves[..|moves| - 1]), moves[|moves| - 1]);
      Next(After(moves[..|moves| - 1]), moves[|moves| - 1])
  }

  // ---------- invariant ----------

  /** Frames in order, numbered in (lo, hi], each carrying the message of the ledger. */
  ghost predicate FramesOk(frames: seq<Frame>, lo: int, hi: int, ledger: map<nat, Message>)
  {
    && Increasing(frames)
    && (forall i :: 0 <= i < |frames| ==>
          lo < frames[i].seqNo <= hi && frames[i].seqNo in ledger && ledger[frames[i].seqNo] == frames[i].msg)
  }

  /** The number of the newest frame that left the queue for the wire. */
  function LastSent(n: Net): nat { if n.channel != [] then n.channel[|n.channel| - 1].seqNo else n.received }

  /** Everything still ahead of the browser is in order and carries the final message of its number. */
  ghost predicate AheadOk(n: Net)
  {
    && FramesOk(n.channel, n.received, n.queue.lastSeq, n.ledger)
    && FramesOk(n.queue.pending, LastSent(n), n.queue.lastSeq, n.ledger)
    && n.received <= LastSent(n) <= n.queue.lastSeq
  }

  /** The first frame of a connection is its baseline. */
  ghost predicate FirstOk(n: Net)
  {
    n.received == 0 ==>
      && (n.channel != [] ==> IsBaseline(n.channel[0]))
      && (n.channel == [] && !n.broken && !n.queue.closed ==> n.queue.pending != [] && IsBaseline(n.queue.pending[0]))
  }

  /** Nothing the server accepted is missing behind the newest frame. */
  ghost predicate NewestOk(n: Net)
  {
    !n.refused && !n.queue.closed ==>
      && (n.queue.pending != [] ==> n.queue.pending[|n.queue.pending| - 1].seqNo == n.queue.lastSeq)
      && (n.queue.pending == [] && !n.broken ==> LastSent(n) == n.queue.lastSeq)
  }

  /** A writer that waits while frames are pending has a wake-up coming. */
  ghost predicate WakeOk(n: Net) { n.waiting && n.queue.pending != [] ==> n.queue.woken }

  ghost predicate Logged(log: seq<Frame>, hi: int, ledger: map<nat, Message>)
  {
    forall i :: 0 <= i < |log| ==> log[i].seqNo <= hi && log[i].seqNo in ledger && ledger[log[i].seqNo] == log[i].msg
  }

  /** The browser's record of this connection is the server's. */
  ghost predicate SeenOk(n: Net)
  {
    !n.browser.resyncing ==>
      && Logged(n.browser.consumed, n.received, n.ledger)
      && (n.browser.socket == Open ==> n.browser.sequence == Some(n.received))
  }

  /** Out of sync on an open socket means waiting for the first frame, or having asked for a repair. */
  ghost predicate SocketOk(n: Net)
  {
    && (n.browser.socket == Open && n.received > 0 && n.browser.resyncing ==> n.browser.requestedRepair)
    && (n.browser.socket == Connecting ==> n.received == 0)
    && (n.browser.closed ==> n.browser.socket != Open && n.browser.socket != Connecting)
  }

  ghost predicate NetOk(n: Net)
  {
    && QueueOk(n.queue) && Accounted(n.queue) && BrowserOk(n.browser)
    && AheadOk(n) && FirstOk(n) && NewestOk(n) && WakeOk(n) && SeenOk(n) && SocketOk(n)
  }

  lemma NewNetOk()
    ensures NetOk(NewNet(0))
  {
  }

  // ---------- offers ----------

  lemma FramesSuffix(frames: seq<Frame>, k: nat, lo: int, hi: int, ledger: map<nat, Message>)
    requires FramesOk(frames, lo, hi, ledger) && k <= |frames|
    ensures FramesOk(frames[k..], lo, hi, ledger)
  {
  }

  lemma FramesAppend(frames: seq<Frame>, f: Frame, lo: int, hi: int, ledger: map<nat, Message>)
    requires FramesOk(frames, lo, hi, ledger) && lo < f.seqNo && f.seqNo in ledger && ledger[f.seqNo] == f.msg
    requires forall i :: 0 <= i < |frames| ==> frames[i].seqNo < f.seqNo
    ensures FramesOk(frames + [f], lo, if f.seqNo > hi then f.seqNo else hi, ledger)
  {
  }

  /** A ledger entry beyond all the numbers of frames does not concern them. */
  lemma FramesOther(frames: seq<Frame>, lo: int, hi: int, hi2: int, ledger: map<nat, Message>, k: nat, m: Message)
    requires FramesOk(frames, lo, hi, ledger) && hi <= hi2
    requires forall i :: 0 <= i < |frames| ==> frames[i].seqNo != k
    ensures FramesOk(frames, lo, hi2, ledger[k := m])
  {
  }

  lemma LoggedOther(log: seq<Frame>, hi: int, ledger: map<nat, Message>, k: nat, m: Message)
    requires Logged(log, hi, ledger) && k > hi
    ensures Logged(log, hi, ledger[k := m])
  {
  }

  /** The queue after an offer, if the browser and the wire stay as they are. */
  ghost predicate OfferFits(n: Net, w: Net)
  {
    && w == n.(queue := w.queue, refused := w.refused, ledger := w.ledger)
    && QueueOk(w.queue) && Accounted(w.queue)
    && n.queue.lastSeq <= w.queue.lastSeq && w.queue.closed == n.queue.closed && (n.refused ==> w.refused)
    && FramesOk(w.queue.pending, LastSent(n), w.queue.lastSeq, w.ledger)
    && FramesOk(n.channel, n.received, w.queue.lastSeq, w.ledger)
    && (!n.browser.resyncing ==> Logged(n.browser.consumed, n.received, w.ledger))
    && (n.queue.pending != [] && IsBaseline(n.queue.pending[0])
      ==> w.queue.pending != [] && IsBaseline(w.queue.pending[0]))
    && (w.queue.pending != [] && n.waiting ==> w.queue.woken)
    && (!w.refused && w.queue.pending != [] && !w.queue.closed
      ==> w.queue.pending[|w.queue.pending| - 1].seqNo == w.queue.lastSeq)
    && (!w.refused && w.queue.pending == [] ==> w.queue == n.queue)
  }

  lemma FittingOfferKeepsOk(n: Net, w: Net)
    requires NetOk(n) && OfferFits(n, w)
    ensures NetOk(w)
  {
    hide FramesOk, QueueOk, Accounted, Logged, BrowserOk, IsBaseline;
  }

  lemma RefusedFits(n: Net, r: Offered, m: Message)
    requires NetOk(n) && !r.ok && r.queue == n.queue
    ensures OfferFits(n, n.(queue := r.queue, refused := true, ledger := Record(n.queue, r.queue, m, n.ledger)))
  {
    hide QueueOk, Accounted, BrowserOk;
  }

  /** What an offer needs to know of the state it finds. */
  lemma OfferBasis(n: Net)
    requires NetOk(n)
    ensures FramesOk(n.channel, n.received, n.queue.lastSeq, n.ledger)
    ensures FramesOk(n.queue.pending, LastSent(n), n.queue.lastSeq, n.ledger)
    ensures n.received <= LastSent(n) <= n.queue.lastSeq
    ensures !n.browser.resyncing ==> Logged(n.browser.consumed, n.received, n.ledger)
    ensures n.waiting && n.queue.pending != [] ==> n.queue.woken
  {
    hide QueueOk, Accounted, FramesOk, Logged, BrowserOk;
  }

  lemma FramesBelow(frames: seq<Frame>, lo: int, hi: int, ledger: map<nat, Message>, k: nat)
    requires FramesOk(frames, lo, hi, ledger) && hi < k
    ensures forall i :: 0 <= i < |frames| ==> frames[i].seqNo < k
  {
  }

  /** A message under the next number concerns nothing that has a number already. */
  lemma NextNumber(n: Net, kept: seq<Frame>, m: Message)
    requires NetOk(n) && |kept| <= |n.queue.pending| && kept == n.queue.pending[|n.queue.pending| - |kept|..]
    ensures var k, last := n.queue.lastSeq + 1, n.queue.lastSeq;
      && FramesOk(n.channel, n.received, k, n.ledger[k := m]) && FramesOk(kept, LastSent(n), last, n.ledger[k := m])
      && (forall i :: 0 <= i < |kept| ==> kept[i].seqNo < k)
      && (!n.browser.resyncing ==> Logged(n.browser.consumed, n.received, n.ledger[k := m]))
  {
    OfferBasis(n);
    var k, last := n.queue.lastSeq + 1, n.queue.lastSeq;
    hide *;
    FramesBelow(n.channel, n.received, last, n.ledger, k);
    FramesOther(n.channel, n.received, last, k, n.ledger, k, m);
    FramesSuffix(n.queue.pending, |n.queue.pending| - |kept|, LastSent(n), last, n.ledger);
    FramesBelow(kept, LastSent(n), last, n.ledger, k);
    FramesOther(kept, LastSent(n), last, last, n.ledger, k, m);
    if !n.browser.resyncing { LoggedOther(n.browser.consumed, n.received, n.ledger, k, m); }
  }

  lemma FramesHigher(frames: seq<Frame>, lo: int, hi: int, hi2: int, ledger: map<nat, Message>)
    requires FramesOk(frames, lo, hi, ledger) && hi <= hi2
    ensures FramesOk(frames, lo, hi2, ledger)
  {
  }

  /** What an offer of the next number makes of the queue, whether the frame stays or is lost. */
  ghost predicate Renumbered(n: Net, r: Queue)
  {
    && r.lastSeq == n.queue.lastSeq + 1 && r.closed == n.queue.closed
    && (n.queue.pending != [] && IsBaseline(n.queue.pending[0]) ==> r.pending != [] && IsBaseline(r.pending[0]))
    && (r.pending != [] && n.waiting ==> r.woken)
  }

  lemma NextFits(n: Net, r: Queue, m: Message, refused: bool)
    requires Renumbered(n, r) && QueueOk(r) && Accounted(r) && (n.refused ==> refused)
    requires var ledger := n.ledger[n.queue.lastSeq + 1 := m];
      && FramesOk(r.pending, LastSent(n), r.lastSeq, ledger) && FramesOk(n.channel, n.received, r.lastSeq, ledger)
      && (!n.browser.resyncing ==> Logged(n.browser.consumed, n.received, ledger))
    requires !refused ==> r.pending != [] && r.pending[|r.pending| - 1].seqNo == r.lastSeq
    ensures OfferFits(n, n.(queue := r, refused := refused, ledger := Record(n.queue, r, m, n.ledger)))
  {
    hide QueueOk, Accounted, FramesOk, Logged, IsBaseline, LastSent;
  }

  lemma LostRenumbers(n: Net, r: Queue)
    requires NetOk(n) && Lost(n.queue, r)
    ensures Renumbered(n, r) && |r.pending| <= |n.queue.pending|
      && r.pending == n.queue.pending[|n.queue.pending| - |r.pending|..]
  {
    OfferBasis(n);
    hide NetOk;
  }

  lemma LostFits(n: Net, r: Queue, m: Message)
    requires NetOk(n) && Lost(n.queue, r) && QueueOk(r) && Accounted(r)
    ensures OfferFits(n, n.(queue := r, refused := true, ledger := Record(n.queue, r, m, n.ledger)))
  {
    LostRenumbers(n, r);
    assert r.lastSeq == n.queue.lastSeq + 1;
    hide *;
    NextNumber(n, r.pending, m);
    FramesHigher(r.pending, LastSent(n), n.queue.lastSeq, r.lastSeq, n.ledger[n.queue.lastSeq + 1 := m]);
    NextFits(n, r, m, true);
  }

  lemma AppendedRenumbers(n: Net, r: Queue, m: Message, size: nat, now: int, kept: seq<Frame>)
    requires Appended(n.queue, r, m, size, now, kept)
    ensures Renumbered(n, r) && r.pending != [] && r.pending[|r.pending| - 1].seqNo == r.lastSeq
  {
    hide IsBaseline;
    assert kept != [] ==> r.pending[0] == kept[0];
  }

  lemma AppendedFits(n: Net, r: Queue, m: Message, size: nat, now: int, kept: seq<Frame>)
    requires NetOk(n) && Appended(n.queue, r, m, size, now, kept) && QueueOk(r) && Accounted(r)
    ensures OfferFits(n, n.(queue := r, refused := n.refused, ledger := Record(n.queue, r, m, n.ledger)))
  {
    var k := n.queue.lastSeq + 1;
    var f := Frame(m, k, size, now);
    assert r.lastSeq == k && r.pending == kept + [f] by { hide IsBaseline; }
    assert LastSent(n) < k by { OfferBasis(n); }
    assert |kept| <= |n.queue.pending| && kept == n.queue.pending[|n.queue.pending| - |kept|..];
    hide *;
    AppendedRenumbers(n, r, m, size, now, kept);
    NextNumber(n, kept, m);
    FramesAppend(kept, f, LastSent(n), n.queue.lastSeq, n.ledger[k := m]);
    NextFits(n, r, m, n.refused);
  }

  /** The number a replaced frame keeps, and the ledger's new message for it. */
  lemma ReplacedNumber(n: Net, r: Queue, m: Message, size: nat)
    requires NetOk(n) && Replaced(n.queue, r, m, size)
    ensures var q, last := n.queue, |n.queue.pending| - 1;
      && q.pending != [] && q.pending[last].seqNo > LastSent(n) >= n.received
      && |r.pending| == |q.pending| && (forall i :: 0 <= i < last ==> r.pending[i] == q.pending[i])
      && r.pending[last].seqNo == q.pending[last].seqNo && r.pending[last].msg == m
      && Record(q, r, m, n.ledger) == n.ledger[q.pending[last].seqNo := m]
  {
    var q, last := n.queue, |n.queue.pending| - 1;
    hide QueueOk, Accounted, BrowserOk, Logged;
    if r.pending == q.pending {
      var k := q.pending[last].seqNo;
      assert n.ledger[k] == m && n.ledger[k := m] == n.ledger;
    }
  }

  /** What replacing the newest frame leaves of the queue's state. */
  ghost predicate KeptNumber(n: Net, r: Queue)
  {
    && r.lastSeq == n.queue.lastSeq && r.closed == n.queue.closed && r.pending != [] && n.queue.pending != []
    && r.pending[|r.pending| - 1].seqNo == n.queue.pending[|n.queue.pending| - 1].seqNo
    && (IsBaseline(n.queue.pending[0]) ==> IsBaseline(r.pending[0]))
    && (n.waiting ==> r.woken)
  }

  lemma ReplacedKeeps(n: Net, r: Queue, m: Message, size: nat)
    requires NetOk(n) && Replaced(n.queue, r, m, size)
    ensures KeptNumber(n, r)
    ensures !n.refused && !n.queue.closed ==> n.queue.pending[|n.queue.pending| - 1].seqNo == n.queue.lastSeq
  {
    hide QueueOk, Accounted, BrowserOk, FramesOk, Logged;
  }

  lemma SameNumberFits(n: Net, r: Queue, m: Message)
    requires KeptNumber(n, r) && QueueOk(r) && Accounted(r)
    requires !n.refused && !n.queue.closed ==> n.queue.pending[|n.queue.pending| - 1].seqNo == n.queue.lastSeq
    requires var ledger := Record(n.queue, r, m, n.ledger);
      && FramesOk(r.pending, LastSent(n), r.lastSeq, ledger) && FramesOk(n.channel, n.received, r.lastSeq, ledger)
      && (!n.browser.resyncing ==> Logged(n.browser.consumed, n.received, ledger))
    ensures OfferFits(n, n.(queue := r, refused := n.refused, ledger := Record(n.queue, r, m, n.ledger)))
  {
    hide QueueOk, Accounted, FramesOk, Logged, IsBaseline, LastSent, Record;
  }

  lemma ReplacedFits(n: Net, r: Queue, m: Message, size: nat)
    requires NetOk(n) && Replaced(n.queue, r, m, size) && QueueOk(r) && Accounted(r)
    ensures OfferFits(n, n.(queue := r, refused := n.refused, ledger := Record(n.queue, r, m, n.ledger)))
  {
    ReplacedNumber(n, r, m, size);
    ReplacedKeeps(n, r, m, size);
    OfferBasis(n);
    assert r.lastSeq == n.queue.lastSeq by { hide IsBaseline; }
    var k := n.queue.pending[|n.queue.pending| - 1].seqNo;
    hide *;
    ChannelBelow(n, k);
    FramesOther(n.channel, n.received, n.queue.lastSeq, n.queue.lastSeq, n.ledger, k, m);
    ReplacedFrames(n.queue.pending, r.pending, LastSent(n), n.queue.lastSeq, n.ledger, m);
    if !n.browser.resyncing { LoggedOther(n.browser.consumed, n.received, n.ledger, k, m); }
    SameNumberFits(n, r, m);
  }

  lemma ChannelBelow(n: Net, k: nat)
    requires FramesOk(n.channel, n.received, n.queue.lastSeq, n.ledger) && k > LastSent(n)
    ensures forall i :: 0 <= i < |n.channel| ==> n.channel[i].seqNo != k
  {
  }

  lemma ReplacedFrames(frames: seq<Frame>, frames2: seq<Frame>, lo: int, hi: int, ledger: map<nat, Message>, m: Message)
    requires FramesOk(frames, lo, hi, ledger) && frames != [] && |frames2| == |frames|
    requires forall i :: 0 <= i < |frames| - 1 ==> frames2[i] == frames[i]
    requires frames2[|frames| - 1].seqNo == frames[|frames| - 1].seqNo && frames2[|frames| - 1].msg == m
    ensures FramesOk(frames2, lo, hi, ledger[frames[|frames| - 1].seqNo := m])
  {
  }

  /** An offer keeps everything, however the queue takes it. */
  lemma OfferKeepsNet(n: Net, m: Message, size: nat, now: int)
    requires NetOk(n)
    ensures NetOk(OfferTo(n, m, size, now))
  {
    var r := Offer(n.queue, m, size, now);
    OfferKeepsOk(n.queue, m, size, now);
    OfferCases(n.queue, m, size, now);
    var w := OfferTo(n, m, size, now);
    assert Accounted(r.queue);
    hide NetOk, Offer, Replaced, Appended, Lost, OfferFits, Record, QueueOk, Accounted;
    if !r.ok && r.queue == n.queue {
      RefusedFits(n, r, m);
    } else if !r.ok {
      LostFits(n, r.queue, m);
    } else if Replaced(n.queue, r.queue, m, size) {
      ReplacedFits(n, r.queue, m, size);
    } else {
      AppendedFits(n, r.queue, m, size, now, KeptBy(n.queue, size, now));
    }
    FittingOfferKeepsOk(n, w);
  }

  // ---------- the server's other moves ----------

  lemma RegisterKeepsNet(n: Net, limit: int, m: Message, size: nat, now: int)
    requires NetOk(n) && m.kind == STATE_SNAPSHOT && !n.browser.closed
    ensures NetOk(Register(n, limit, m, size, now))
  {
    var started := Net(NewQueue(limit), false, false, false, map[], [], 0, Connect(n.browser));
    var first := OfferTo(started, m, size, now);
    RegisteredQueue(limit, m, size, now);
    assert BrowserOk(Connect(n.browser)) by { SocketStepsKeepOk(n.browser); }
    hide BrowserOk;
  }

  /** The first offer to a fresh queue either fails or leaves the baseline pending under number 1. */
  lemma RegisteredQueue(limit: int, m: Message, size: nat, now: int)
    requires m.kind == STATE_SNAPSHOT
    ensures Accounted(NewQueue(limit)) && QueueOk(NewQueue(limit))
    ensures var r := Offer(NewQueue(limit), m, size, now);
      if r.ok then r.queue
        == NewQueue(limit).(pending := [Frame(m, 1, size, now)], lastSeq := 1, queuedBytes := size, woken := true)
          && QueueOk(r.queue)
      else QueueOk(Close(r.queue)) && Close(r.queue).pending == []
  {
    OfferKeepsOk(NewQueue(limit), m, size, now);
    EmptyFits(NewQueue(limit).(lastSeq := 1), if size <= QUEUE_BYTES then size else 0);
  }

  lemma CloseKeepsNet(n: Net)
    requires NetOk(n)
    ensures NetOk(n.(queue := Close(n.queue)))
  {
    hide FramesOk, BrowserOk, Logged;
    assert FramesOk([], LastSent(n), n.queue.lastSeq, n.ledger) by { NoFrames(LastSent(n), n.queue.lastSeq, n.ledger); }
  }

  lemma NoFrames(lo: int, hi: int, ledger: map<nat, Message>)
    ensures FramesOk([], lo, hi, ledger)
  {
  }

  /** The head of the queue, and the rest of it. */
  lemma HeadFacts(n: Net)
    requires NetOk(n) && n.queue.pending != []
    ensures var f := n.queue.pending[0];
      && LastSent(n) < f.seqNo <= n.queue.lastSeq && f.seqNo in n.ledger && n.ledger[f.seqNo] == f.msg
      && FramesOk(n.queue.pending[1..], f.seqNo, n.queue.lastSeq, n.ledger)
      && FramesOk(n.channel + [f], n.received, n.queue.lastSeq, n.ledger)
  {
    hide BrowserOk, QueueOk;
  }

  lemma SendKeepsNet(n: Net)
    requires NetOk(n) && !n.waiting && !n.broken && Dequeue(n.queue).1.Some?
    ensures NetOk(n.(queue := Dequeue(n.queue).0, channel := n.channel + [n.queue.pending[0]]))
  {
    DequeueKeepsOk(n.queue);
    HeadFacts(n);
    hide FramesOk, BrowserOk, Logged, QueueOk, Accounted;
  }

  lemma LoseKeepsNet(n: Net)
    requires NetOk(n) && !n.waiting && !n.broken && Dequeue(n.queue).1.Some?
    ensures NetOk(n.(queue := Dequeue(n.queue).0, broken := true))
  {
    DequeueKeepsOk(n.queue);
    HeadFacts(n);
    WeakerBound(n.queue.pending[1..], n.queue.pending[0].seqNo, LastSent(n), n.queue.lastSeq, n.ledger);
    hide FramesOk, BrowserOk, Logged, QueueOk, Accounted;
  }

  lemma WeakerBound(frames: seq<Frame>, lo: int, lower: int, hi: int, ledger: map<nat, Message>)
    requires FramesOk(frames, lo, hi, ledger) && lower <= lo
    ensures FramesOk(frames, lower, hi, ledger)
  {
  }

  lemma WakeKeepsNet(n: Net, move: Move)
    requires NetOk(n) && (move == WriterWake || move == WriterTick)
    ensures NetOk(Next(n, move))
  {
    hide FramesOk, BrowserOk, Logged;
  }

  /** A writer that finds nothing to send waits. */
  lemma IdleKeepsNet(n: Net, move: Move)
    requires NetOk(n) && (move == WriterSend || move == WriterLose)
    requires n.waiting || n.broken || Dequeue(n.queue).1.None?
    ensures NetOk(Next(n, move))
  {
    hide FramesOk, BrowserOk, Logged;
    if !n.waiting && !n.broken { assert n.queue.pending == []; }
  }

  lemma WriterKeepsNet(n: Net, move: Move)
    requires NetOk(n) && (move == WriterSend || move == WriterLose || move == WriterWake || move == WriterTick)
    ensures NetOk(Next(n, move))
  {
    assert Dequeue(n.queue).1.Some? ==> n.queue.pending != [] && Dequeue(n.queue).1.value == n.queue.pending[0] by {
      hide NetOk;
    }
    hide NetOk, Dequeue, OfferTo, OnMessage, SetProfile;
    if move == WriterWake || move == WriterTick {
      WakeKeepsNet(n, move);
    } else if n.waiting || n.broken || Dequeue(n.queue).1.None? {
      IdleKeepsNet(n, move);
    } else if move == WriterSend {
      SendKeepsNet(n);
    } else {
      LoseKeepsNet(n);
    }
  }

  // ---------- the browser's moves ----------

  /** A browser step that keeps the connection's log and never opens or resyncs by itself. */
  ghost predicate Quiet(b: Browser, b2: Browser)
  {
    && BrowserOk(b2)
    && (!b2.resyncing ==> !b.resyncing && b2.consumed == b.consumed && b2.sequence == b.sequence)
    && (b2.socket == Open ==> b.socket == Open)
    && (b2.socket == Connecting ==> b.socket == Connecting)
    && (b2.socket == Open && b2.resyncing
      ==> b2.requestedRepair || (b.resyncing && b2.requestedRepair == b.requestedRepair))
    && (b2.closed ==> b.closed || (b2.socket != Open && b2.socket != Connecting))
  }

  lemma QuietKeepsNet(n: Net, b2: Browser)
    requires NetOk(n) && Quiet(n.browser, b2)
    ensures NetOk(n.(browser := b2))
  {
    hide FramesOk, BrowserOk, Logged, QueueOk, Accounted;
  }

  lemma RepairIsQuiet(b: Browser)
    requires BrowserOk(b)
    ensures Quiet(b, RequestRepair(b))
  {
    RepairKeepsOk(b);
    hide BrowserOk;
  }

  lemma ProfileIsQuiet(b: Browser, profile: Profile)
    requires BrowserOk(b)
    ensures Quiet(b, SetProfile(b, profile))
  {
    SetProfileKeepsOk(b, profile);
    assert b.requestedRepair ==> b.resyncing;
    var next := b.(desired := profile);
    ApplyIsApplied(next);
    hide BrowserOk, ApplyProfile, Target;
  }

  lemma OpenKeepsNet(n: Net)
    requires NetOk(n)
    ensures NetOk(n.(browser := OnOpen(n.browser)))
  {
    SocketStepsKeepOk(n.browser);
    assert n.browser.socket == Connecting ==> n.browser.resyncing;
    hide FramesOk, Logged, QueueOk, Accounted, BrowserOk;
  }

  lemma ClosingIsQuiet(b: Browser)
    requires BrowserOk(b)
    ensures Quiet(b, StartClosing(b)) && Quiet(b, DropSocket(b)) && Quiet(b, Shut(b)) && Quiet(b, Refresh(b))
  {
    SocketStepsKeepOk(b);
    RepairIsQuiet(b);
    hide BrowserOk, RequestRepair;
  }

  lemma SocketMovesKeepNet(n: Net, move: Move)
    requires NetOk(n)
      && (move == SocketOpens || move == SocketCloses || move == SocketGone || move == AskRefresh || move == ShutDown)
    ensures NetOk(Next(n, move))
  {
    assert BrowserOk(n.browser);
    hide NetOk, BrowserOk, Quiet, OnOpen, StartClosing, DropSocket, Refresh, Shut;
    ClosingIsQuiet(n.browser);
    match move
    case SocketOpens => OpenKeepsNet(n);
    case SocketCloses => QuietKeepsNet(n, StartClosing(n.browser));
    case SocketGone => QuietKeepsNet(n, DropSocket(n.browser));
    case AskRefresh => QuietKeepsNet(n, Refresh(n.browser));
    case ShutDown => QuietKeepsNet(n, Shut(n.browser));
  }

  // ---------- delivery ----------

  lemma ChannelHead(n: Net)
    requires NetOk(n) && n.channel != []
    ensures var f := n.channel[0];
      && n.received < f.seqNo <= LastSent(n) && f.seqNo in n.ledger && n.ledger[f.seqNo] == f.msg
      && FramesOk(n.channel[1..], f.seqNo, n.queue.lastSeq, n.ledger)
      && LastSent(n) == if |n.channel| > 1 then n.channel[1..][|n.channel| - 2].seqNo else f.seqNo
  {
    hide BrowserOk, QueueOk;
  }

  /** What the browser knows after a frame numbered received, for the system's invariant. */
  ghost predicate Taken(b: Browser, received: nat, ledger: map<nat, Message>)
  {
    && BrowserOk(b) && b.socket != Connecting
    && (!b.resyncing ==> Logged(b.consumed, received, ledger) && (b.socket == Open ==> b.sequence == Some(received)))
    && (b.socket == Open && b.resyncing ==> b.requestedRepair)
    && (b.closed ==> b.socket != Open)
  }

  lemma LoggedLater(log: seq<Frame>, hi: int, hi2: int, ledger: map<nat, Message>)
    requires Logged(log, hi, ledger) && hi <= hi2
    ensures Logged(log, hi2, ledger)
  {
  }

  lemma BaselineTaken(b: Browser, f: Frame, ledger: map<nat, Message>)
    requires BrowserOk(b) && b.socket != Connecting && b.socket != NoSocket && !b.closed
    requires f.msg.kind == STATE_SNAPSHOT && f.msg.valid && f.seqNo in ledger && ledger[f.seqNo] == f.msg
    ensures Taken(Baseline(b, f), f.seqNo, ledger)
  {
    BaselineKeepsOk(b, f);
    var next := b.(epoch := f.msg.epoch, contextCapable := f.msg.contextCapable, sequence := Some(f.seqNo),
      requestedRepair := false,
      profileBarrier := false, resyncing := false, baselineArmed := false, consumed := [f], view := [f]);
    ApplyIsApplied(next);
    hide ApplyProfile, BrowserOk;
  }

  lemma PatchTaken(b: Browser, f: Frame, received: nat, ledger: map<nat, Message>)
    requires BrowserOk(b) && b.socket != Connecting && !b.closed && !b.resyncing && b.sequence.Some?
      && f.seqNo == b.sequence.value + 1
    requires f.seqNo in ledger && ledger[f.seqNo] == f.msg && Logged(b.consumed, received, ledger) && received < f.seqNo
    ensures Taken(Advance(b, f), f.seqNo, ledger)
  {
    AdvanceKeepsOk(b, f);
    LoggedLater(b.consumed, received, f.seqNo, ledger);
    hide BrowserOk;
  }

  /** A frame with a number beyond the last one received is taken as a baseline, as the next patch, or as a gap. */
  lemma MessageTaken(b: Browser, f: Frame, received: nat, ledger: map<nat, Message>)
    requires BrowserOk(b) && b.socket != Connecting && b.socket != NoSocket && (b.closed ==> b.socket != Open)
    requires received < f.seqNo && f.seqNo in ledger && ledger[f.seqNo] == f.msg
    requires !b.resyncing
      ==> Logged(b.consumed, received, ledger) && (b.socket == Open ==> b.sequence == Some(received))
    requires b.socket == Open && b.resyncing ==> b.requestedRepair || (received == 0 && IsBaseline(f))
    ensures Taken(OnMessage(b, f), f.seqNo, ledger)
  {
    OnMessageKeepsOk(b, f);
    if !b.resyncing {
      SequenceKnown(b);
      LoggedLater(b.consumed, received, f.seqNo, ledger);
    }
    RepairIsQuiet(b);
    if !b.closed && f.msg.kind == STATE_SNAPSHOT && f.msg.valid { BaselineTaken(b, f, ledger); }
    if !b.closed && !b.resyncing && b.sequence.Some? && f.seqNo == b.sequence.value + 1 {
      PatchTaken(b, f, received, ledger);
    }
    hide BrowserOk, Logged, Baseline, Advance, ApplyProfile;
  }

  lemma DeliverKeepsNet(n: Net)
    requires NetOk(n)
    ensures NetOk(Next(n, Deliver))
  {
    if n.channel != [] && n.browser.socket != NoSocket && n.browser.socket != Connecting {
      var f := n.channel[0];
      ChannelHead(n);
      MessageTaken(n.browser, f, n.received, n.ledger);
      hide FramesOk, BrowserOk, Logged, QueueOk, Accounted, OnMessage;
    }
  }

  lemma NextKeepsOk(n: Net, move: Move)
    requires NetOk(n)
    ensures NetOk(Next(n, move))
  {
    assert BrowserOk(n.browser);
    hide NetOk, BrowserOk, Register, OfferTo, Close, SetProfile, OnMessage;
    match move
    case Reconnect(limit, m, size, now) =>
      if !(n.browser.closed || n.browser.desired == Hidden || m.kind != STATE_SNAPSHOT) {
        RegisterKeepsNet(n, limit, m, size, now);
      }
    case ServerOffer(m, size, now) => OfferKeepsNet(n, m, size, now);
    case ServerClose => CloseKeepsNet(n);
    case WriterSend => WriterKeepsNet(n, move);
    case WriterLose => WriterKeepsNet(n, move);
    case WriterWake => WriterKeepsNet(n, move);
    case WriterTick => WriterKeepsNet(n, move);
    case Deliver => DeliverKeepsNet(n);
    case SocketOpens => SocketMovesKeepNet(n, move);
    case SocketCloses => SocketMovesKeepNet(n, move);
    case SocketGone => SocketMovesKeepNet(n, move);
    case ChangeProfile(profile) =>
      ProfileIsQuiet(n.browser, profile);
      QuietKeepsNet(n, SetProfile(n.browser, profile));
    case AskRefresh => SocketMovesKeepNet(n, move);
    case ShutDown => SocketMovesKeepNet(n, move);
  }

  // ---------- the theorems ----------

  /**
   Convergence: whenever the browser is in sync, the frames it consumed since its last baseline carry
   every number from that baseline to its sequence, once and in order, and each carries the last message
   the server put under that number; nothing dropped or superseded was skipped unnoticed.
   */
  lemma StreamConverges(moves: seq<Move>)
    requires !After(moves).browser.resyncing
    ensures var n := After(moves);
      && n.browser.consumed != [] && n.browser.consumed[0].msg.kind == STATE_SNAPSHOT
      && n.browser.sequence == Some(n.browser.consumed[|n.browser.consumed| - 1].seqNo)
      && (forall i :: 0 <= i < |n.browser.consumed| ==>
            && n.browser.consumed[i].seqNo == n.browser.consumed[0].seqNo + i
            && n.browser.consumed[i].seqNo in n.ledger
              && n.ledger[n.browser.consumed[i].seqNo] == n.browser.consumed[i].msg)
  {
    assert NetOk(After(moves));
    hide After, QueueOk, AheadOk, FirstOk, NewestOk, WakeOk, SocketOk, ProfileOk, Guarded;
  }

  /** An open dashboard connection in sync has shown its handlers everything but the pongs. */
  lemma DashboardSeesEverything(moves: seq<Move>)
    requires var b := After(moves).browser; b.socket == Open && !b.resyncing && b.applied == Dashboard
    ensures After(moves).browser.view == WithoutPongs(After(moves).browser.consumed)
  {
    assert NetOk(After(moves));
    hide After, QueueOk, AheadOk, FirstOk, NewestOk, WakeOk, SocketOk, SeenOk, Guarded, InSync;
  }

  /** When everything queued has arrived, a browser in sync has reached the server's own sequence. */
  lemma QuietStreamIsCurrent(moves: seq<Move>)
    requires var n := After(moves);
      && n.queue.pending == [] && n.channel == [] && !n.queue.closed && !n.broken && !n.refused
      && n.browser.socket == Open && !n.browser.resyncing
    ensures After(moves).browser.sequence == Some(After(moves).queue.lastSeq)
  {
    assert NetOk(After(moves));
    hide After, QueueOk, AheadOk, FirstOk, WakeOk, SocketOk, BrowserOk, Logged;
  }

  /** The first frame a connection delivers is its own baseline, number 1. */
  lemma FirstFrameIsBaseline(moves: seq<Move>)
    requires var n := After(moves); n.received == 0 && n.channel != []
    ensures IsBaseline(After(moves).channel[0])
  {
    assert NetOk(After(moves));
    hide After, QueueOk, AheadOk, NewestOk, WakeOk, SocketOk, BrowserOk, SeenOk;
  }

  /**
   An open browser out of sync waits for its first frame or has a repair request outstanding, and a timer bounds the
   wait.
   */
  lemma OutOfSyncIsBeingRepaired(moves: seq<Move>)
    requires var b := After(moves).browser; b.socket == Open && b.resyncing
    ensures After(moves).browser.requestedRepair || After(moves).received == 0
    ensures After(moves).browser.baselineArmed
  {
    assert NetOk(After(moves));
    hide After, QueueOk, AheadOk, FirstOk, NewestOk, WakeOk, SeenOk, InSync, ProfileOk;
  }

  /** No wake-up is lost: a writer never waits on a queue that holds frames without a token to wake it. */
  lemma NoLostWakeup(moves: seq<Move>)
    requires var n := After(moves); n.waiting && n.queue.pending != []
    ensures After(moves).queue.woken
  {
    assert NetOk(After(moves));
    hide After, QueueOk, AheadOk, FirstOk, NewestOk, SocketOk, BrowserOk, SeenOk;
  }

  /** In every run the queue's accounting is exact and its bounds hold. */
  lemma QueueStaysBounded(moves: seq<Move>)
    ensures var q := After(moves).queue;
      && q.queuedBytes == Bytes(q.pending) <= QUEUE_BYTES && |q.pending| <= Limit(q) && Increasing(q.pending)
  {
    assert NetOk(After(moves));
    hide After, AheadOk, FirstOk, NewestOk, WakeOk, SocketOk, BrowserOk, SeenOk, Bytes;
  }
}
