/**
 internal/core/transitions.go and the consensus handlers of internal/core/orchestrator.go: the
 authoritative height, round, step and vote cells. Addresses and hashes are already in the case the
 handlers give them. Wall-clock fields of the state are left out.
 */
module Consensus {
  import opened Common

  const MAX_INT32 := 0x7fff_ffff
  const BLOCK_HISTORY_LIMIT := 120

  datatype Phase = Prevote | Precommit

  /** A vote cell; the empty hash is an observed nil vote. */
  datatype Cell = Absent | Voted(hash: string)

  datatype Row = Row(address: string, prevote: Cell, precommit: Cell, isProposer: bool)
  {
    function At(phase: Phase): Cell { if phase == Prevote then prevote else precommit }

    function Fill(phase: Phase, hash: string): Row
    {
      if phase == Prevote then this.(prevote := Voted(hash)) else this.(precommit := Voted(hash))
    }
  }

  datatype RoundView = RoundView(round: int, rows: seq<Row>)

  datatype BlockSample = BlockSample(height: int, time: int, blockTimeMs: int)

  datatype Server = Server(
    height: int,
    round: int,
    step: int,
    committed: int,
    lastRound: Option<RoundView>,
    validatorHeight: int,
    blocks: seq<BlockSample>)
  {
    function Rows(): seq<Row> { if lastRound.Some? then lastRound.value.rows else [] }
  }

  const EMPTY_SERVER := Server(0, 0, 0, 0, None, 0, [])

  // ---------- rows ----------

  function Cleared(row: Row): Row { Row(row.address, Absent, Absent, false) }

  function ClearVotes(rows: seq<Row>): (r: seq<Row>)
    ensures |r| == |rows| && forall i :: 0 <= i < |rows| ==> r[i] == Cleared(rows[i])
  {
    if rows == [] then [] else [Cleared(rows[0])] + ClearVotes(rows[1..])
  }

  function MarkRows(rows: seq<Row>, addr: string): (r: seq<Row>)
    ensures |r| == |rows| && forall i :: 0 <= i < |rows| ==> r[i] == rows[i].(isProposer := rows[i].address == addr)
  {
    if rows == [] then [] else [rows[0].(isProposer := rows[0].address == addr)] + MarkRows(rows[1..], addr)
  }

  /** The first row of an address, or |rows|. */
  function FirstIndex(rows: seq<Row>, addr: string): (i: nat)
    ensures i <= |rows| && (i < |rows| ==> rows[i].address == addr)
      && forall j :: 0 <= j < i ==> rows[j].address != addr
  {
    if rows == [] || rows[0].address == addr then 0 else FirstIndex(rows[1..], addr) + 1
  }

  predicate Known(rows: seq<Row>, addr: string) { FirstIndex(rows, addr) < |rows| }

  // ---------- transitions ----------

  function StepOf(phase: Phase): int { if phase == Prevote then 4 else 6 }

  predicate Refuses(s: Server, height: int, round: int)
  {
    || height <= s.committed || height < s.height || round < 0 || round > MAX_INT32
    || (height == s.height && round < s.round)
  }

  predicate NewContext(s: Server, height: int, round: int) { height != s.height || round != s.round }

  function ClearRound(view: Option<RoundView>, round: int): Option<RoundView>
  {
    if view.None? then None else Some(RoundView(round, ClearVotes(view.value.rows)))
  }

  /** advanceRound, for a context it does not refuse. */
  function Advance(s: Server, height: int, round: int, step: int): Server
  {
    if NewContext(s, height, round)
      then s.(height := height, round := round, step := step, lastRound := ClearRound(s.lastRound, round))
    else s.(step := Max(s.step, step))
  }

  function WithRows(s: Server, rows: seq<Row>): Server
  {
    if s.lastRound.None? then s else s.(lastRound := Some(s.lastRound.value.(rows := rows)))
  }

  /** appendBlock */
  function AppendBlock(blocks: seq<BlockSample>, sample: BlockSample): seq<BlockSample>
  {
    if blocks != [] && sample.height <= blocks[|blocks| - 1].height then blocks else
      var last := if blocks == [] then sample else blocks[|blocks| - 1];
      var timed := if blocks != [] && sample.height == last.height + 1 && sample.time > last.time
        then sample.(blockTimeMs := (sample.time - last.time) / 1_000_000) else sample;
      var grown := blocks + [timed];
      if |grown| > BLOCK_HISTORY_LIMIT then grown[|grown| - BLOCK_HISTORY_LIMIT..] else grown
  }

  // ---------- handlers ----------

  datatype Input =
    | NewBlock(height: int, time: int)
    | NewRound(height: int, round: int, step: int, proposer: string)
    | Vote(height: int, round: int, phase: Phase, addr: string, hash: string)
    | Status(latest: int)
    | HttpConsensus(height: int, round: int, step: int, streaming: bool, streamingAfter: bool)
    | Validators(addresses: seq<string>, height: int)
    | LatestBlock(sample: BlockSample)

  /** What the handlers publish for the browser to fold in. */
  datatype Patch =
    | BlockCommitted(height: int)
    | RoundChanged(height: int, round: int, step: int, proposer: string)
    | VoteReceived(height: int, round: int, phase: Phase, addr: string, hash: string)

  /** accepted is the context advanceRound took, if the input reached it and it did. */
  datatype Handled = Handled(server: Server, patch: Option<Patch>, accepted: Option<(int, int)>)

  predicate Stored(blocks: seq<BlockSample>, height: int)
  {
    exists i :: 0 <= i < |blocks| && blocks[i].height == height
  }

  function HandleNewBlock(s: Server, h: int, time: int): Handled
  {
    if h <= 0 || h < s.committed || Stored(s.blocks, h) then Handled(s, None, None) else
      var stored := s.(committed := h, blocks := AppendBlock(s.blocks, BlockSample(h, time, 0)));
      if Refuses(stored, h + 1, 0) then Handled(stored, Some(BlockCommitted(h)), None)
      else Handled(Advance(stored, h + 1, 0, 1), Some(BlockCommitted(h)), Some((h + 1, 0)))
  }

  function HandleNewRound(s: Server, h: int, r: int, step: int, proposer: string): Handled
  {
    if Refuses(s, h, r) then Handled(s, None, None) else
      var moved := Advance(s, h, r, step);
      var marked := if proposer == "" then moved else WithRows(moved, MarkRows(moved.Rows(), proposer));
      Handled(marked, Some(RoundChanged(h, r, step, proposer)), Some((h, r)))
  }

  function HandleVote(s: Server, h: int, r: int, phase: Phase, addr: string, hash: string): Handled
  {
    if Refuses(s, h, r) then Handled(s, None, None) else
      var moved := Advance(s, h, r, StepOf(phase));
      var rows := moved.Rows();
      var i := FirstIndex(rows, addr);
      if i == |rows| then Handled(moved, Some(VoteReceived(h, r, phase, addr, hash)), Some((h, r)))
      else if rows[i].At(phase) != Absent then Handled(moved, None, Some((h, r)))
      else Handled(WithRows(moved, rows[i := rows[i].Fill(phase, hash)]), Some(VoteReceived(h, r, phase, addr, hash)),
        Some((h, r)))
  }

  /** The consensus part of refreshStatus. */
  function HandleStatus(s: Server, latest: int): Server
  {
    if latest <= s.committed then s
    else if s.height > 0 && s.height <= latest then
      s.(committed := latest, height := 0, round := 0, step := 0, lastRound := ClearRound(s.lastRound, 0))
    else s.(committed := latest)
  }

  /** refreshConsensusViaHTTP on a response with a height, round and step. */
  function HandleHttp(s: Server, h: int, r: int, step: int, streaming: bool, streamingAfter: bool): Handled
  {
    if h <= 0 || r < 0 || step < 0 || streaming || Refuses(s, h, r) then Handled(s, None, None) else
      var moved := Advance(s, h, r, step);
      var cleared := if streamingAfter then moved else WithRows(moved, ClearVotes(moved.Rows()));
      Handled(cleared, Some(RoundChanged(h, r, step, "")), Some((h, r)))
  }

  /** The vote and proposer record the last row of an address holds, if any row does. */
  function Previous(rows: seq<Row>, addr: string): Row
  {
    if rows == [] then Row(addr, Absent, Absent, false)
    else if rows[|rows| - 1].address == addr then rows[|rows| - 1]
    else Previous(rows[..|rows| - 1], addr)
  }

  function MergeRows(previous: seq<Row>, addresses: seq<string>): (r: seq<Row>)
    ensures |r| == |addresses| && forall i :: 0 <= i < |r| ==> r[i] == Previous(previous, addresses[i])
  {
    if addresses == [] then []
      else MergeRows(previous, addresses[..|addresses| - 1]) + [Previous(previous, addresses[|addresses| - 1])]
  }

  /** mergeValidatorRound */
  function HandleValidators(s: Server, addresses: seq<string>, height: int): Server
  {
    if height < s.validatorHeight then s else
      var previous := if s.lastRound.Some? && s.lastRound.value.round == s.round then s.lastRound.value.rows else [];
      s.(lastRound := Some(RoundView(s.round, MergeRows(previous, addresses))), validatorHeight := height)
  }

  function Handle(s: Server, e: Input): Handled
  {
    match e
    case NewBlock(h, time) => HandleNewBlock(s, h, time)
    case NewRound(h, r, step, proposer) => HandleNewRound(s, h, r, step, proposer)
    case Vote(h, r, phase, addr, hash) => HandleVote(s, h, r, phase, addr, hash)
    case Status(latest) => Handled(HandleStatus(s, latest), None, None)
    case HttpConsensus(h, r, step, streaming, streamingAfter) => HandleHttp(s, h, r, step, streaming, streamingAfter)
    case Validators(addresses, height) => Handled(HandleValidators(s, addresses, height), None, None)
    case LatestBlock(sample) => Handled(s.(blocks := AppendBlock(s.blocks, sample)), None, None)
  }

  // ---------- runs ----------

  function After(s: Server, run: seq<Input>): Server
  {
    if run == [] then s else Handle(After(s, run[..|run| - 1]), run[|run| - 1]).server
  }

  /** The contexts accepted along a run, in order. */
  function Accepted(s: Server, run: seq<Input>): seq<(int, int)>
  {
    if run == [] then [] else
      var last := Handle(After(s, run[..|run| - 1]), run[|run| - 1]).accepted;
      Accepted(s, run[..|run| - 1]) + if last.Some? then [last.value] else []
  }

  /** The patches published along a run, in order. */
  function Published(s: Server, run: seq<Input>): seq<Patch>
  {
    if run == [] then [] else
      var last := Handle(After(s, run[..|run| - 1]), run[|run| - 1]).patch;
      Published(s, run[..|run| - 1]) + if last.Some? then [last.value] else []
  }

  // ---------- invariants ----------

  predicate LexLeq(a: (int, int), b: (int, int)) { a.0 < b.0 || (a.0 == b.0 && a.1 <= b.1) }

  /** Height is 0 or above the committed height, the view is of the current round, nothing is negative. */
  ghost predicate ContextOk(s: Server)
  {
    && (s.height == 0 || s.height > s.committed)
    && s.committed >= 0 && s.round >= 0 && s.height >= 0
    && (s.lastRound.Some? ==> s.lastRound.value.round == s.round)
  }

  /** A filled cell cannot be older than its step. */
  ghost predicate Filled(s: Server) { RowsFilled(s.Rows(), s.step) }

  ghost predicate RowsFilled(rows: seq<Row>, step: int)
  {
    forall i :: 0 <= i < |rows| ==> (rows[i].prevote.Voted? ==> step >= 4) && (rows[i].precommit.Voted? ==> step >= 6)
  }

  function WasCast(run: seq<Input>, h: int, r: int, phase: Phase, addr: string, hash: string): bool
  {
    run != [] && (run[|run| - 1] == Vote(h, r, phase, addr, hash) || WasCast(run[..|run| - 1], h, r, phase, addr, hash))
  }

  ghost predicate RowCast(run: seq<Input>, h: int, r: int, row: Row)
  {
    && (row.prevote.Voted? ==> WasCast(run, h, r, Prevote, row.address, row.prevote.hash))
    && (row.precommit.Voted? ==> WasCast(run, h, r, Precommit, row.address, row.precommit.hash))
  }

  /** Every shown vote was cast by that validator in exactly the current height and round. */
  ghost predicate ShownWereCast(run: seq<Input>, s: Server) { RowsCast(run, s.height, s.round, s.Rows()) }

  ghost predicate RowsCast(run: seq<Input>, h: int, r: int, rows: seq<Row>)
  {
    forall i :: 0 <= i < |rows| ==> RowCast(run, h, r, rows[i])
  }

  lemma {:induction false} PreviousIsARow(rows: seq<Row>, addr: string)
    ensures var p := Previous(rows, addr);
      p.address == addr && (p == Row(addr, Absent, Absent, false) || exists i :: 0 <= i < |rows| && rows[i] == p)
  {
    if rows != [] && rows[|rows| - 1].address != addr { PreviousIsARow(rows[..|rows| - 1], addr); }
  }

  lemma HandleKeepsContext(s: Server, e: Input)
    requires ContextOk(s)
    ensures ContextOk(Handle(s, e).server)
  {
    hide AppendBlock, Stored;
  }

  lemma AdvanceFilled(s: Server, h: int, r: int, step: int)
    requires Filled(s)
    ensures Filled(Advance(s, h, r, step)) && Advance(s, h, r, step).step >= step
  {
  }

  lemma MergeFilled(s: Server, addresses: seq<string>, height: int)
    requires Filled(s)
    ensures Filled(HandleValidators(s, addresses, height))
  {
    if height >= s.validatorHeight {
      var previous := if s.lastRound.Some? && s.lastRound.value.round == s.round then s.lastRound.value.rows else [];
      MergedRows(previous, addresses);
    }
  }

  /** A merged row is a row of before, or blank. */
  lemma MergedRows(previous: seq<Row>, addresses: seq<string>)
    ensures forall i :: 0 <= i < |addresses| ==>
      MergeRows(previous, addresses)[i] == Row(addresses[i], Absent, Absent, false)
      || exists j :: 0 <= j < |previous| && previous[j] == MergeRows(previous, addresses)[i]
  {
    forall i | 0 <= i < |addresses|
      ensures MergeRows(previous, addresses)[i] == Row(addresses[i], Absent, Absent, false)
        || exists j :: 0 <= j < |previous| && previous[j] == MergeRows(previous, addresses)[i]
    {
      PreviousIsARow(previous, addresses[i]);
    }
  }

  lemma HandleKeepsFilled(s: Server, e: Input)
    requires Filled(s)
    ensures Filled(Handle(s, e).server)
  {
    hide AppendBlock, Stored, Advance, Filled;
    match e
    case NewBlock(h, time) =>
      var stored := s.(committed := h, blocks := AppendBlock(s.blocks, BlockSample(h, time, 0)));
      SameRowsFilled(s, stored);
      AdvanceFilled(stored, h + 1, 0, 1);
    case NewRound(h, r, step, proposer) =>
      AdvanceFilled(s, h, r, step);
      MarkedFilled(Advance(s, h, r, step), proposer);
    case Vote(h, r, phase, addr, hash) =>
      AdvanceFilled(s, h, r, StepOf(phase));
      CastFilled(Advance(s, h, r, StepOf(phase)), phase, addr, hash);
    case Status(latest) => ResetFilled(s, latest);
    case HttpConsensus(h, r, step, streaming, streamingAfter) =>
      AdvanceFilled(s, h, r, step);
      BlankFilled(Advance(s, h, r, step));
    case Validators(addresses, height) => MergeFilled(s, addresses, height);
    case LatestBlock(sample) => SameRowsFilled(s, s.(blocks := AppendBlock(s.blocks, sample)));
  }

  lemma SameRowsFilled(s: Server, t: Server)
    requires Filled(s) && t.lastRound == s.lastRound && t.step == s.step
    ensures Filled(t)
  {
  }

  lemma MarkedFilled(s: Server, proposer: string)
    requires Filled(s)
    ensures Filled(WithRows(s, MarkRows(s.Rows(), proposer)))
  {
  }

  lemma CastFilled(s: Server, phase: Phase, addr: string, hash: string)
    requires Filled(s) && s.step >= StepOf(phase)
    ensures var i := FirstIndex(s.Rows(), addr);
      i < |s.Rows()| ==> Filled(WithRows(s, s.Rows()[i := s.Rows()[i].Fill(phase, hash)]))
  {
  }

  lemma ResetFilled(s: Server, latest: int)
    requires Filled(s)
    ensures Filled(HandleStatus(s, latest))
  {
  }

  lemma BlankFilled(s: Server)
    ensures Filled(WithRows(s, ClearVotes(s.Rows())))
  {
  }

  // ---------- contexts never go back ----------

  /** Everything accepted so far is at or before the current context, or at most the committed height. */
  ghost predicate Floor(accepted: seq<(int, int)>, s: Server)
  {
    forall i :: 0 <= i < |accepted| ==>
      if s.height > 0 then LexLeq(accepted[i], (s.height, s.round)) else accepted[i].0 <= s.committed
  }

  lemma FloorStays(accepted: seq<(int, int)>, s: Server, e: Input)
    requires ContextOk(s) && Floor(accepted, s)
    ensures Floor(accepted, Handle(s, e).server)
  {
    hide AppendBlock, Stored, MarkRows, ClearVotes;
  }

  lemma AcceptedIsAbove(accepted: seq<(int, int)>, s: Server, e: Input)
    requires ContextOk(s) && Floor(accepted, s)
    ensures var a := Handle(s, e).accepted;
      a.Some? ==>
        (forall i :: 0 <= i < |accepted| ==> LexLeq(accepted[i], a.value))
        && Floor([a.value], Handle(s, e).server)
  {
    hide AppendBlock, Stored, MarkRows, ClearVotes;
  }

  lemma HandleRaisesFloor(accepted: seq<(int, int)>, s: Server, e: Input)
    requires ContextOk(s) && Floor(accepted, s)
    ensures Floor(accepted, Handle(s, e).server)
    ensures var a := Handle(s, e).accepted;
      a.Some? ==>
        (forall i :: 0 <= i < |accepted| ==> LexLeq(accepted[i], a.value))
        && Floor([a.value], Handle(s, e).server)
  {
    hide *;
    FloorStays(accepted, s, e);
    AcceptedIsAbove(accepted, s, e);
  }

  ghost predicate Ordered(accepted: seq<(int, int)>)
  {
    forall i, j :: 0 <= i < j < |accepted| ==> LexLeq(accepted[i], accepted[j])
  }

  lemma {:induction false} RunFacts(run: seq<Input>)
    ensures var s := After(EMPTY_SERVER, run);
      ContextOk(s) && Filled(s) && Floor(Accepted(EMPTY_SERVER, run), s) && Ordered(Accepted(EMPTY_SERVER, run))
  {
    if run != [] {
      var front, e := run[..|run| - 1], run[|run| - 1];
      RunFacts(front);
      hide ContextOk, Filled, Handle, LexLeq;
      var s := After(EMPTY_SERVER, front);
      HandleKeepsContext(s, e);
      HandleKeepsFilled(s, e);
      HandleRaisesFloor(Accepted(EMPTY_SERVER, front), s, e);
      var a, before := Handle(s, e).accepted, Accepted(EMPTY_SERVER, front);
      if a.Some? { FloorAppend(before, a.value, Handle(s, e).server); }
      assert before + [] == before;
    }
  }

  lemma FloorAppend(accepted: seq<(int, int)>, a: (int, int), s: Server)
    requires Floor(accepted, s) && Floor([a], s) && Ordered(accepted)
    requires forall i :: 0 <= i < |accepted| ==> LexLeq(accepted[i], a)
    ensures Floor(accepted + [a], s) && Ordered(accepted + [a])
  {
    assert [a][0] == a;
    hide LexLeq;
  }

  /**
   Over every interleaving of stream events, HTTP fallback, status resets and validator merges, accepted
   contexts never go back, and the current context is 0 or above the committed height.
   */
  lemma AcceptedContextsNeverGoBack(run: seq<Input>, i: nat, j: nat)
    requires i < j < |Accepted(EMPTY_SERVER, run)|
    ensures LexLeq(Accepted(EMPTY_SERVER, run)[i], Accepted(EMPTY_SERVER, run)[j])
  {
    RunFacts(run);
    hide After, Accepted, LexLeq;
  }

  lemma CurrentContextIsSound(run: seq<Input>)
    ensures var s := After(EMPTY_SERVER, run);
      && (s.height == 0 || s.height > s.committed)
      && (s.lastRound.Some? ==> s.lastRound.value.round == s.round)
      && Filled(s)
  {
    RunFacts(run);
    hide After, Filled;
  }

  // ---------- shown votes were cast ----------

  lemma CastStays(run: seq<Input>, e: Input, h: int, r: int, row: Row)
    requires RowCast(run, h, r, row)
    ensures RowCast(run + [e], h, r, row)
  {
    assert (run + [e])[..|run|] == run;
  }

  lemma ShownStay(run: seq<Input>, e: Input, s: Server)
    requires ShownWereCast(run, s)
    ensures ShownWereCast(run + [e], s)
  {
    var rows := s.Rows();
    forall i | 0 <= i < |rows| ensures RowCast(run + [e], s.height, s.round, rows[i]) {
      CastStays(run, e, s.height, s.round, rows[i]);
    }
  }

  lemma AdvanceShown(run: seq<Input>, s: Server, h: int, r: int, step: int)
    requires ShownWereCast(run, s)
    ensures ShownWereCast(run, Advance(s, h, r, step))
    ensures Advance(s, h, r, step).height == h && Advance(s, h, r, step).round == r
  {
    hide WasCast;
  }

  lemma SameShown(run: seq<Input>, s: Server, t: Server)
    requires ShownWereCast(run, s) && t.lastRound == s.lastRound && t.height == s.height && t.round == s.round
    ensures ShownWereCast(run, t)
  {
  }

  lemma MarkedShown(run: seq<Input>, s: Server, proposer: string)
    requires ShownWereCast(run, s)
    ensures ShownWereCast(run, WithRows(s, MarkRows(s.Rows(), proposer)))
  {
    hide WasCast;
  }

  lemma CastShown(run: seq<Input>, s: Server, phase: Phase, addr: string, hash: string)
    requires ShownWereCast(run, s)
    requires WasCast(run, s.height, s.round, phase, addr, hash)
    ensures var i := FirstIndex(s.Rows(), addr);
      i < |s.Rows()| ==> ShownWereCast(run, WithRows(s, s.Rows()[i := s.Rows()[i].Fill(phase, hash)]))
  {
    hide WasCast;
  }

  lemma ResetShown(run: seq<Input>, s: Server, latest: int)
    requires ShownWereCast(run, s)
    ensures ShownWereCast(run, HandleStatus(s, latest))
  {
    hide WasCast;
  }

  lemma BlankShown(run: seq<Input>, s: Server)
    ensures ShownWereCast(run, WithRows(s, ClearVotes(s.Rows())))
  {
    hide WasCast;
  }

  lemma MergeShown(run: seq<Input>, s: Server, addresses: seq<string>, height: int)
    requires ShownWereCast(run, s)
    ensures ShownWereCast(run, HandleValidators(s, addresses, height))
  {
    if height >= s.validatorHeight {
      var previous := if s.lastRound.Some? && s.lastRound.value.round == s.round then s.lastRound.value.rows else [];
      MergedRows(previous, addresses);
    }
    hide WasCast;
  }

  lemma HandleKeepsShown(run: seq<Input>, s: Server, e: Input)
    requires ShownWereCast(run, s)
    ensures ShownWereCast(run + [e], Handle(s, e).server)
  {
    ShownStay(run, e, s);
    hide AppendBlock, Stored, Advance, ShownWereCast;
    match e
    case NewBlock(h, time) =>
      var stored := s.(committed := h, blocks := AppendBlock(s.blocks, BlockSample(h, time, 0)));
      SameShown(run + [e], s, stored);
      AdvanceShown(run + [e], stored, h + 1, 0, 1);
    case NewRound(h, r, step, proposer) =>
      AdvanceShown(run + [e], s, h, r, step);
      MarkedShown(run + [e], Advance(s, h, r, step), proposer);
    case Vote(h, r, phase, addr, hash) =>
      AdvanceShown(run + [e], s, h, r, StepOf(phase));
      CastShown(run + [e], Advance(s, h, r, StepOf(phase)), phase, addr, hash);
    case Status(latest) => ResetShown(run + [e], s, latest);
    case HttpConsensus(h, r, step, streaming, streamingAfter) =>
      AdvanceShown(run + [e], s, h, r, step);
      BlankShown(run + [e], Advance(s, h, r, step));
    case Validators(addresses, height) => MergeShown(run + [e], s, addresses, height);
    case LatestBlock(sample) => SameShown(run + [e], s, s.(blocks := AppendBlock(s.blocks, sample)));
  }

  lemma {:induction false} ShownVotesWereCast(run: seq<Input>)
    ensures ShownWereCast(run, After(EMPTY_SERVER, run))
  {
    if run != [] {
      var front, e := run[..|run| - 1], run[|run| - 1];
      ShownVotesWereCast(front);
      HandleKeepsShown(front, After(EMPTY_SERVER, front), e);
      assert front + [e] == run;
    }
  }

  // ---------- block history ----------

  ghost predicate BlocksOk(blocks: seq<BlockSample>)
  {
    && |blocks| <= BLOCK_HISTORY_LIMIT
    && (forall i, j :: 0 <= i < j < |blocks| ==> blocks[i].height < blocks[j].height)
  }

  /** The history stays ascending and bounded, keeps its newest part, and takes exactly the newer samples. */
  lemma AppendBlockFacts(blocks: seq<BlockSample>, sample: BlockSample)
    requires BlocksOk(blocks)
    ensures BlocksOk(AppendBlock(blocks, sample))
    ensures Stored(AppendBlock(blocks, sample), sample.height) <==>
      blocks == [] || sample.height > blocks[|blocks| - 1].height || Stored(blocks, sample.height)
    ensures forall h :: Stored(AppendBlock(blocks, sample), h) ==> h == sample.height || Stored(blocks, h)
  {
    var next := AppendBlock(blocks, sample);
    if blocks == [] || sample.height > blocks[|blocks| - 1].height {
      assert next[|next| - 1].height == sample.height;
      assert forall i :: 0 <= i < |next| - 1 ==> next[i] == blocks[|blocks| - (|next| - 1) + i];
    }
  }

  /** What a new sample becomes behind the newest block. */
  function TimedSample(blocks: seq<BlockSample>, sample: BlockSample): BlockSample
  {
    if blocks != [] && sample.height == blocks[|blocks| - 1].height + 1 && sample.time > blocks[|blocks| - 1].time
      then sample.(blockTimeMs := (sample.time - blocks[|blocks| - 1].time) / 1_000_000) else sample
  }

  lemma NewestGoesLast(blocks: seq<BlockSample>, sample: BlockSample)
    requires blocks == [] || sample.height > blocks[|blocks| - 1].height
    ensures var r := AppendBlock(blocks, sample);
      && |r| == Min(|blocks| + 1, 120) && r[|r| - 1] == TimedSample(blocks, sample)
      && r[..|r| - 1] == blocks[|blocks| + 1 - |r|..]
  {
    var grown := blocks + [TimedSample(blocks, sample)];
    assert AppendBlock(blocks, sample)
      == if |grown| > BLOCK_HISTORY_LIMIT then grown[|grown| - BLOCK_HISTORY_LIMIT..] else grown;
    hide AppendBlock, TimedSample;
  }

  lemma Milliseconds(d: int)
    ensures 0 <= d - 1_000_000 * (d / 1_000_000) < 1_000_000
  {
  }

  /**
   r is the history with a newer sample at its end, behind the newest 119 of those before it. A sample that directly
   follows the one before and is later carries the whole milliseconds between them; any other stays as it is.
   */
  ghost predicate Extended(blocks: seq<BlockSample>, sample: BlockSample, r: seq<BlockSample>)
  {
    && |r| == Min(|blocks| + 1, 120) && r[..|r| - 1] == blocks[|blocks| + 1 - |r|..]
    && r[|r| - 1] == sample.(blockTimeMs := r[|r| - 1].blockTimeMs)
    && if blocks != [] && sample.height == blocks[|blocks| - 1].height + 1 && sample.time > blocks[|blocks| - 1].time
    then 0 <= sample.time - blocks[|blocks| - 1].time - 1_000_000 * r[|r| - 1].blockTimeMs < 1_000_000
    else r[|r| - 1] == sample
  }

  /** A sample extends the history if it is newer than all of it, and otherwise leaves it alone. */
  lemma HistoryExtends(blocks: seq<BlockSample>, sample: BlockSample)
    ensures if blocks == [] || sample.height > blocks[|blocks| - 1].height
      then Extended(blocks, sample, AppendBlock(blocks, sample)) else AppendBlock(blocks, sample) == blocks
  {
    if blocks == [] || sample.height > blocks[|blocks| - 1].height {
      NewestGoesLast(blocks, sample);
      if blocks != [] { Milliseconds(sample.time - blocks[|blocks| - 1].time); }
    }
    hide TimedSample;
  }
}
