/** What each input of the consensus state does to the vote cells, the proposer marks and the context. */
module Cells {
  import opened Common
  import opened Consensus
  import opened Simulation

  // ---------- merging the validator list ----------

  /** Row j is the last one of its address. */
  ghost predicate LastRow(rows: seq<Row>, j: nat)
    requires j < |rows|
  {
    forall l :: j < l < |rows| ==> rows[l].address != rows[j].address
  }

  /** The rows of the current round, if the view is of that round. */
  function CurrentRows(s: Server): seq<Row>
  {
    if s.lastRound.Some? && s.lastRound.value.round == s.round then s.lastRound.value.rows else []
  }

  /** The row is the last one of the address, or blank if the address had none. */
  ghost predicate Keeps(rows: seq<Row>, addr: string, row: Row)
  {
    && (forall j :: 0 <= j < |rows| && rows[j].address == addr && LastRow(rows, j) ==> row == rows[j])
    && ((forall j :: 0 <= j < |rows| ==> rows[j].address != addr) ==> row == Row(addr, Absent, Absent, false))
    && row.address == addr
  }

  lemma LastRowFront(rows: seq<Row>, j: nat)
    requires j < |rows| - 1 && LastRow(rows, j)
    ensures LastRow(rows[..|rows| - 1], j) && rows[|rows| - 1].address != rows[j].address
  {
  }

  lemma KeepsFront(rows: seq<Row>, addr: string, row: Row)
    requires rows != [] && rows[|rows| - 1].address != addr && Keeps(rows[..|rows| - 1], addr, row)
    ensures Keeps(rows, addr, row)
  {
    hide LastRow;
    var front := rows[..|rows| - 1];
    forall j | 0 <= j < |rows| && rows[j].address == addr && LastRow(rows, j) ensures row == rows[j] {
      LastRowFront(rows, j);
      assert front[j] == rows[j];
    }
    if forall j :: 0 <= j < |rows| ==> rows[j].address != addr {
      forall j | 0 <= j < |front| ensures front[j].address != addr {
        assert front[j] == rows[j];
      }
    }
  }

  lemma KeepsLast(rows: seq<Row>)
    requires rows != []
    ensures Keeps(rows, rows[|rows| - 1].address, rows[|rows| - 1])
  {
  }

  lemma {:induction false} PreviousIsLastRow(rows: seq<Row>, addr: string)
    ensures Keeps(rows, addr, Previous(rows, addr))
  {
    if rows != [] {
      var front := rows[..|rows| - 1];
      PreviousIsLastRow(front, addr);
      KeepsLast(rows);
      assert Previous(rows, addr)
        == if rows[|rows| - 1].address == addr then rows[|rows| - 1] else Previous(front, addr);
      hide Keeps, Previous;
      if rows[|rows| - 1].address != addr { KeepsFront(rows, addr, Previous(front, addr)); }
    }
  }

  /**
   A refresh of the validator list that is not older than the last one lists the given addresses in order. A listed
   address keeps the row it had, with its votes and its proposer mark, if the view is of the current round; every other
   row is blank. Nothing else of the state changes. An older refresh changes nothing.
   */
  lemma MergeKeepsObservations(s: Server, addresses: seq<string>, height: int)
    ensures var t := HandleValidators(s, addresses, height);
      if height < s.validatorHeight then t == s else
        && t == s.(lastRound := t.lastRound, validatorHeight := height)
        && t.lastRound.Some? && t.lastRound.value.round == s.round && |t.Rows()| == |addresses|
        && (forall i :: 0 <= i < |addresses| ==> Keeps(CurrentRows(s), addresses[i], t.Rows()[i]))
  {
    var previous := CurrentRows(s);
    forall i | 0 <= i < |addresses| ensures Keeps(previous, addresses[i], Previous(previous, addresses[i])) {
      PreviousIsLastRow(previous, addresses[i]);
    }
    hide Previous, Keeps;
  }

  // ---------- cells ----------

  /** The cell of an address and phase; an address that is not listed has none. */
  function CellAt(s: Server, addr: string, phase: Phase): Cell
  {
    var i := FirstIndex(s.Rows(), addr);
    if i < |s.Rows()| then s.Rows()[i].At(phase) else Absent
  }

  predicate MarkAt(s: Server, addr: string)
  {
    var i := FirstIndex(s.Rows(), addr);
    i < |s.Rows()| && s.Rows()[i].isProposer
  }

  predicate Listed(s: Server, addr: string) { FirstIndex(s.Rows(), addr) < |s.Rows()| }

  /** The input takes the observations of the current context away from addr. */
  predicate Wipes(s: Server, e: Input, addr: string)
  {
    match e
    case HttpConsensus(h, r, step, streaming, streamingAfter) => Handle(s, e).accepted.Some? && !streamingAfter
    case Validators(addresses, height) => height >= s.validatorHeight && addr !in addresses
    case _ => false
  }

  /** The input is a vote of addr in this phase that is accepted. */
  predicate Casts(s: Server, e: Input, addr: string, phase: Phase)
  {
    e.Vote? && e.addr == addr && e.phase == phase && Handle(s, e).accepted.Some?
  }

  /** What remains of the cell when the context changes or the input wipes it. */
  function Kept(s: Server, e: Input, addr: string, phase: Phase): Cell
  {
    var t := Handle(s, e).server;
    if t.height != s.height || t.round != s.round || Wipes(s, e, addr) then Absent else CellAt(s, addr, phase)
  }

  lemma ClearedCells(s: Server, round: int, addr: string, phase: Phase)
    ensures var t := s.(lastRound := ClearRound(s.lastRound, round));
      CellAt(t, addr, phase) == Absent && !MarkAt(t, addr) && Listed(t, addr) == Listed(s, addr)
  {
    FirstOfCleared(s.Rows(), addr);
  }

  lemma BlankCells(s: Server, addr: string, phase: Phase)
    ensures var t := WithRows(s, ClearVotes(s.Rows()));
      CellAt(t, addr, phase) == Absent && !MarkAt(t, addr) && Listed(t, addr) == Listed(s, addr)
  {
    FirstOfCleared(s.Rows(), addr);
  }

  lemma AdvancedCells(s: Server, h: int, r: int, step: int, addr: string, phase: Phase)
    ensures var t := Advance(s, h, r, step);
      && Listed(t, addr) == Listed(s, addr)
      && CellAt(t, addr, phase)
        == (if t.height != s.height || t.round != s.round then Absent else CellAt(s, addr, phase))
      && MarkAt(t, addr) == (t.height == s.height && t.round == s.round && MarkAt(s, addr))
  {
    ClearedCells(s, r, addr, phase);
  }

  lemma {:induction false} FirstOfMarked(rows: seq<Row>, proposer: string, addr: string)
    ensures FirstIndex(MarkRows(rows, proposer), addr) == FirstIndex(rows, addr)
  {
    if rows != [] { FirstOfMarked(rows[1..], proposer, addr); }
  }

  lemma MarkedCells(s: Server, proposer: string, addr: string, phase: Phase)
    ensures var t := WithRows(s, MarkRows(s.Rows(), proposer));
      && Listed(t, addr) == Listed(s, addr) && CellAt(t, addr, phase) == CellAt(s, addr, phase)
      && MarkAt(t, addr) == (Listed(s, addr) && addr == proposer)
  {
    FirstOfMarked(s.Rows(), proposer, addr);
  }

  lemma {:induction false} FirstOfUpdated(rows: seq<Row>, i: nat, row: Row, addr: string)
    requires i < |rows| && row.address == rows[i].address
    ensures FirstIndex(rows[i := row], addr) == FirstIndex(rows, addr)
  {
    if rows[0].address == addr {
    } else if i == 0 {
      assert rows[i := row][1..] == rows[1..];
    } else {
      assert rows[i := row][1..] == rows[1..][i - 1 := row];
      FirstOfUpdated(rows[1..], i - 1, row, addr);
    }
  }

  lemma FilledCells(s: Server, voter: string, cast: Phase, hash: string, addr: string, phase: Phase)
    requires Listed(s, voter)
    ensures var i := FirstIndex(s.Rows(), voter); var t := WithRows(s, s.Rows()[i := s.Rows()[i].Fill(cast, hash)]);
      && Listed(t, addr) == Listed(s, addr) && MarkAt(t, addr) == MarkAt(s, addr)
      && CellAt(t, addr, phase) == if addr == voter && phase == cast then Voted(hash) else CellAt(s, addr, phase)
  {
    var i := FirstIndex(s.Rows(), voter);
    FirstOfUpdated(s.Rows(), i, s.Rows()[i].Fill(cast, hash), addr);
  }

  lemma {:induction false} FirstOfMerged(rows: seq<Row>, addresses: seq<string>, addr: string)
    requires |rows| == |addresses| && forall i :: 0 <= i < |rows| ==> rows[i].address == addresses[i]
    ensures FirstIndex(rows, addr) < |rows| <==> addr in addresses
  {
    if rows != [] { FirstOfMerged(rows[1..], addresses[1..], addr); }
  }

  lemma MergedCells(s: Server, addresses: seq<string>, height: int, addr: string, phase: Phase)
    requires ContextOk(s) && DistinctRows(s.Rows()) && height >= s.validatorHeight
    ensures var t := HandleValidators(s, addresses, height);
      && Listed(t, addr) == (addr in addresses)
      && CellAt(t, addr, phase) == (if addr in addresses then CellAt(s, addr, phase) else Absent)
      && MarkAt(t, addr) == (addr in addresses && MarkAt(s, addr))
  {
    var t := HandleValidators(s, addresses, height);
    MergeKeepsObservations(s, addresses, height);
    FirstOfMerged(t.Rows(), addresses, addr);
    if addr in addresses {
      var i := FirstIndex(t.Rows(), addr);
      assert Keeps(CurrentRows(s), addr, t.Rows()[i]);
      if Listed(s, addr) { assert LastRow(s.Rows(), FirstIndex(s.Rows(), addr)); }
    }
    hide HandleValidators;
  }

  /** The cell after the input, and what a vote publishes. */
  ghost predicate CellRule(s: Server, e: Input, addr: string, phase: Phase)
  {
    var x := Handle(s, e);
    && CellAt(x.server, addr, phase)
      == (if Casts(s, e, addr, phase) && Listed(x.server, addr) && Kept(s, e, addr, phase) == Absent then Voted(e.hash)
        else Kept(s, e, addr, phase))
    && (e.Vote? ==>
          x.patch == if Casts(s, e, e.addr, e.phase) && Kept(s, e, e.addr, e.phase) == Absent
            then Some(VoteReceived(e.height, e.round, e.phase, e.addr, e.hash)) else None)
  }

  /** The proposer mark after the input. */
  ghost predicate MarkRule(s: Server, e: Input, addr: string)
  {
    var t := Handle(s, e).server;
    MarkAt(t, addr) <==>
      if e.NewRound? && Handle(s, e).accepted.Some? && e.proposer != "" then Listed(t, addr) && addr == e.proposer
      else t.height == s.height && t.round == s.round && !Wipes(s, e, addr) && MarkAt(s, addr)
  }

  lemma SameRowsCells(s: Server, t: Server, addr: string, phase: Phase)
    requires t.lastRound == s.lastRound
    ensures CellAt(t, addr, phase) == CellAt(s, addr, phase) && MarkAt(t, addr) == MarkAt(s, addr)
      && Listed(t, addr) == Listed(s, addr)
  {
  }

  lemma BlockOutcome(s: Server, e: Input)
    requires e.NewBlock?
    ensures var u, t := s.(committed := e.height, blocks := AppendBlock(s.blocks, BlockSample(e.height, e.time, 0))),
        Handle(s, e).server;
      t == s || t == u || t == Advance(u, e.height + 1, 0, 1)
  {
    hide AppendBlock, Advance, Refuses;
  }

  lemma BlockCells(s: Server, e: Input, addr: string, phase: Phase)
    requires e.NewBlock?
    ensures CellRule(s, e, addr, phase) && MarkRule(s, e, addr)
  {
    var u := s.(committed := e.height, blocks := AppendBlock(s.blocks, BlockSample(e.height, e.time, 0)));
    BlockOutcome(s, e);
    AdvancedCells(u, e.height + 1, 0, 1, addr, phase);
    SameRowsCells(s, u, addr, phase);
    hide AppendBlock, Advance, Refuses, Handle, CellAt, MarkAt, Listed;
  }

  lemma RoundCells(s: Server, e: Input, addr: string, phase: Phase)
    requires e.NewRound?
    ensures CellRule(s, e, addr, phase) && MarkRule(s, e, addr)
  {
    var moved := Advance(s, e.height, e.round, e.step);
    AdvancedCells(s, e.height, e.round, e.step, addr, phase);
    MarkedCells(moved, e.proposer, addr, phase);
    assert Handle(s, e).server == if Refuses(s, e.height, e.round) then s else if e.proposer == "" then moved
      else WithRows(moved, MarkRows(moved.Rows(), e.proposer));
    assert !Refuses(s, e.height, e.round) ==> moved.height == e.height && moved.round == e.round;
    assert Handle(s, e).accepted.Some? <==> !Refuses(s, e.height, e.round);
    hide FirstIndex, MarkRows, Refuses, Advance, CellAt, MarkAt, Listed;
    assert WithRows(moved, MarkRows(moved.Rows(), e.proposer)).height == moved.height;
    assert WithRows(moved, MarkRows(moved.Rows(), e.proposer)).round == moved.round;
  }

  /** A vote whose context is accepted moves to it, and then fills its cell if that is listed and empty. */
  ghost predicate VoteEnds(s: Server, e: Input, moved: Server, x: Handled)
    requires e.Vote?
  {
    && x.accepted.Some? && x.server.height == moved.height && x.server.round == moved.round
    && (CellAt(moved, e.addr, e.phase) != Absent ==> x.server == moved && x.patch == None)
    && (CellAt(moved, e.addr, e.phase) == Absent
      ==> x.patch == Some(VoteReceived(e.height, e.round, e.phase, e.addr, e.hash)))
    && (!Listed(moved, e.addr) ==> x.server == moved)
    && (Listed(moved, e.addr) && CellAt(moved, e.addr, e.phase) == Absent ==>
          var i := FirstIndex(moved.Rows(), e.addr);
          x.server == WithRows(moved, moved.Rows()[i := moved.Rows()[i].Fill(e.phase, e.hash)]))
  }

  /** What remains of a cell after an accepted vote is what the move to its context leaves there. */
  lemma VoteKeepsCell(s: Server, e: Input, addr: string, phase: Phase)
    requires e.Vote?
    ensures if Refuses(s, e.height, e.round) then Kept(s, e, addr, phase) == CellAt(s, addr, phase)
      else Kept(s, e, addr, phase) == CellAt(Advance(s, e.height, e.round, StepOf(e.phase)), addr, phase)
  {
    AdvancedCells(s, e.height, e.round, StepOf(e.phase), addr, phase);
    VoteOutcome(s, e);
    hide FirstIndex, Refuses, Advance, CellAt, MarkAt, Listed, Handle, WithRows;
  }

  lemma VoteCell(s: Server, e: Input, addr: string, phase: Phase)
    requires e.Vote?
    ensures CellRule(s, e, addr, phase)
  {
    var moved := Advance(s, e.height, e.round, StepOf(e.phase));
    VoteKeepsCell(s, e, addr, phase);
    VoteKeepsCell(s, e, e.addr, e.phase);
    VoteOutcome(s, e);
    hide FirstIndex, Refuses, Advance, CellAt, MarkAt, Listed, Handle, WithRows, Kept;
    if !Refuses(s, e.height, e.round) && Listed(moved, e.addr) && CellAt(moved, e.addr, e.phase) == Absent {
      FilledCells(moved, e.addr, e.phase, e.hash, addr, phase);
    }
  }

  lemma VoteMark(s: Server, e: Input, addr: string)
    requires e.Vote?
    ensures MarkRule(s, e, addr)
  {
    var moved := Advance(s, e.height, e.round, StepOf(e.phase));
    AdvancedCells(s, e.height, e.round, StepOf(e.phase), addr, e.phase);
    VoteOutcome(s, e);
    hide FirstIndex, Refuses, Advance, CellAt, MarkAt, Listed, Handle, WithRows;
    if !Refuses(s, e.height, e.round) && Listed(moved, e.addr) && CellAt(moved, e.addr, e.phase) == Absent {
      FilledCells(moved, e.addr, e.phase, e.hash, addr, e.phase);
    }
  }

  lemma VoteOutcome(s: Server, e: Input)
    requires e.Vote?
    ensures var moved, x := Advance(s, e.height, e.round, StepOf(e.phase)), Handle(s, e);
      if Refuses(s, e.height, e.round) then x == Handled(s, None, None) else VoteEnds(s, e, moved, x)
  {
    hide FirstIndex, Refuses;
  }

  lemma StatusCells(s: Server, e: Input, addr: string, phase: Phase)
    requires e.Status?
    ensures CellRule(s, e, addr, phase) && MarkRule(s, e, addr)
  {
    var u := s.(committed := e.latest, height := 0, round := 0, step := 0);
    var w := u.(lastRound := ClearRound(u.lastRound, 0));
    var t := Handle(s, e).server;
    ClearedCells(u, 0, addr, phase);
    SameRowsCells(s, s.(committed := e.latest), addr, phase);
    assert t == s || t == s.(committed := e.latest) || (t == w && s.height > 0);
    hide ClearRound, Handle, CellAt, MarkAt, Listed;
  }

  lemma ValidatorsCells(s: Server, e: Input, addr: string, phase: Phase)
    requires ContextOk(s) && DistinctRows(s.Rows()) && e.Validators?
    ensures CellRule(s, e, addr, phase) && MarkRule(s, e, addr)
  {
    if e.height >= s.validatorHeight { MergedCells(s, e.addresses, e.height, addr, phase); }
    var t := Handle(s, e).server;
    assert t == HandleValidators(s, e.addresses, e.height) && t.height == s.height && t.round == s.round;
    assert e.height < s.validatorHeight ==> t == s;
    assert Handle(s, e).patch.None?;
    hide HandleValidators, Handle, CellAt, MarkAt, Listed, ContextOk, DistinctRows;
  }

  lemma SampleCells(s: Server, e: Input, addr: string, phase: Phase)
    requires e.LatestBlock?
    ensures CellRule(s, e, addr, phase) && MarkRule(s, e, addr)
  {
    SameRowsCells(s, Handle(s, e).server, addr, phase);
    hide AppendBlock, CellAt, MarkAt, Listed;
  }

  lemma HttpOutcome(s: Server, e: Input)
    requires e.HttpConsensus?
    ensures var x, moved := Handle(s, e), Advance(s, e.height, e.round, e.step);
      if x.accepted.None? then x.server == s
      else x.server == if e.streamingAfter then moved else WithRows(moved, ClearVotes(moved.Rows()))
  {
    hide Advance, Refuses, ClearVotes;
  }

  lemma WithRowsKeeps(s: Server, rows: seq<Row>)
    ensures WithRows(s, rows).height == s.height && WithRows(s, rows).round == s.round
  {
  }

  lemma HttpCells(s: Server, e: Input, addr: string, phase: Phase)
    requires e.HttpConsensus?
    ensures CellRule(s, e, addr, phase) && MarkRule(s, e, addr)
  {
    var moved := Advance(s, e.height, e.round, e.step);
    AdvancedCells(s, e.height, e.round, e.step, addr, phase);
    BlankCells(moved, addr, phase);
    HttpOutcome(s, e);
    WithRowsKeeps(moved, ClearVotes(moved.Rows()));
    hide FirstIndex, ClearVotes, Advance, Refuses, WithRows, Handle, CellAt, MarkAt, Listed;
  }

  /**
   What an input leaves in the cell of an address and phase, and of its proposer mark. A change of context and a wipe
   empty them; otherwise they stay, an empty cell of a listed address takes the first accepted vote, and an accepted
   round with a proposer marks exactly that address. A vote is published exactly when it is accepted and finds the cell
   empty.
   */
  lemma CellsExactly(s: Server, e: Input, addr: string, phase: Phase)
    requires ContextOk(s) && DistinctRows(s.Rows())
    ensures CellRule(s, e, addr, phase) && MarkRule(s, e, addr)
  {
    hide ContextOk, DistinctRows, CellRule, MarkRule;
    match e
    case NewBlock(_, _) => BlockCells(s, e, addr, phase);
    case NewRound(_, _, _, _) => RoundCells(s, e, addr, phase);
    case Vote(_, _, _, _, _) =>
      VoteCell(s, e, addr, phase);
      VoteMark(s, e, addr);
    case HttpConsensus(_, _, _, _, _) => HttpCells(s, e, addr, phase);
    case Status(_) => StatusCells(s, e, addr, phase);
    case Validators(_, _) => ValidatorsCells(s, e, addr, phase);
    case LatestBlock(_) => SampleCells(s, e, addr, phase);
  }

  // ---------- the context ----------

  /** The context and step an input asks for. */
  function Asked(e: Input): Option<(int, int, int)>
  {
    match e
    case NewBlock(h, time) => Some((h + 1, 0, 1))
    case NewRound(h, r, step, proposer) => Some((h, r, step))
    case Vote(h, r, phase, addr, hash) => Some((h, r, if phase == Prevote then 4 else 6))
    case HttpConsensus(h, r, step, streaming, streamingAfter) => Some((h, r, step))
    case _ => None
  }

  /** What an input must satisfy before its context is looked at. */
  ghost predicate WellFormed(s: Server, e: Input)
  {
    match e
    case NewBlock(h, time) => h > 0 && h >= s.committed && forall i :: 0 <= i < |s.blocks| ==> s.blocks[i].height != h
    case NewRound(h, r, step, proposer) => true
    case Vote(h, r, phase, addr, hash) => true
    case HttpConsensus(h, r, step, streaming, streamingAfter) => h > 0 && r >= 0 && step >= 0 && !streaming
    case _ => false
  }

  /**
   Which contexts are accepted: above the committed height, in range, and not before the current one. An accepted
   context becomes the current one; its step is taken in a new context and can only raise the step in the same one.
   Otherwise only a status that passes the current height ends it. Committed heights come from blocks and from statuses.
   */
  lemma ContextExactly(s: Server, e: Input)
    ensures var x := Handle(s, e); var t := x.server;
      && (x.accepted.Some? <==>
            && WellFormed(s, e) && Asked(e).value.0 > t.committed && 0 <= Asked(e).value.1 <= 0x7fff_ffff
            && LexLeq((s.height, s.round), (Asked(e).value.0, Asked(e).value.1)))
      && (x.accepted.Some? ==>
            && x.accepted == Some((t.height, t.round)) && (t.height, t.round) == (Asked(e).value.0, Asked(e).value.1)
            && t.step == if (t.height, t.round) != (s.height, s.round) then Asked(e).value.2
              else Max(s.step, Asked(e).value.2))
      && (x.accepted.None? ==>
            (t.height, t.round, t.step)
              == if e.Status? && 0 < s.height <= e.latest && s.committed < e.latest then (0, 0, 0)
                else (s.height, s.round, s.step))
      && t.committed == (if e.NewBlock? && WellFormed(s, e) then e.height
        else if e.Status? then Max(s.committed, e.latest) else s.committed)
      && (e.NewBlock? ==> (x.patch == if WellFormed(s, e) then Some(BlockCommitted(e.height)) else None))
      && (e.NewRound? ==>
            (x.patch == if x.accepted.Some? then Some(RoundChanged(e.height, e.round, e.step, e.proposer)) else None))
      && (e.HttpConsensus? ==>
            (x.patch == if x.accepted.Some? then Some(RoundChanged(e.height, e.round, e.step, "")) else None))
  {
    hide AppendBlock, ClearVotes, MarkRows, FirstIndex, MergeRows;
  }

  /** The sample an input offers to the block history. */
  ghost function Offered(s: Server, e: Input): Option<BlockSample>
  {
    if e.NewBlock? && WellFormed(s, e) then Some(BlockSample(e.height, e.time, 0))
    else if e.LatestBlock? then Some(e.sample)
    else None
  }

  /** The block history takes what streamed blocks and polled samples offer if it is newer, and nothing else. */
  lemma HistoryExactly(s: Server, e: Input)
    ensures var blocks, sample := Handle(s, e).server.blocks, Offered(s, e);
      if sample.Some? && (s.blocks == [] || sample.value.height > s.blocks[|s.blocks| - 1].height)
      then Extended(s.blocks, sample.value, blocks) else blocks == s.blocks
  {
    if Offered(s, e).Some? { HistoryExtends(s.blocks, Offered(s, e).value); }
    hide AppendBlock, Extended, ClearVotes, MarkRows, FirstIndex, MergeRows;
  }

  // ---------- runs ----------

  ghost predicate ListsDistinct(run: seq<Input>)
  {
    forall i :: 0 <= i < |run| && run[i].Validators? ==> DistinctRoster(run[i].addresses)
  }

  lemma HandleKeepsDistinct(s: Server, e: Input)
    requires DistinctRows(s.Rows()) && (e.Validators? ==> DistinctRoster(e.addresses))
    ensures DistinctRows(Handle(s, e).server.Rows())
  {
    if e.Validators? {
      MergeKeepsObservations(s, e.addresses, e.height);
      hide HandleValidators;
    } else {
      HandleKeepsAddresses(s, e);
      hide Handle;
      var rows := Handle(s, e).server.Rows();
      assert |rows| == |AddressesOf(rows)| == |AddressesOf(s.Rows())| == |s.Rows()|;
      forall i, j | 0 <= i < j < |rows| ensures rows[i].address != rows[j].address {
        assert rows[i].address == AddressesOf(rows)[i] == AddressesOf(s.Rows())[i] == s.Rows()[i].address;
        assert rows[j].address == AddressesOf(rows)[j] == AddressesOf(s.Rows())[j] == s.Rows()[j].address;
      }
    }
  }

  lemma SameAddresses(rows: seq<Row>, addr: string, phase: Phase, hash: string)
    ensures AddressesOf(ClearVotes(rows)) == AddressesOf(rows) && AddressesOf(MarkRows(rows, addr)) == AddressesOf(rows)
    ensures var i := FirstIndex(rows, addr);
      i < |rows| ==> AddressesOf(rows[i := rows[i].Fill(phase, hash)]) == AddressesOf(rows)
  {
    KeptAddresses(rows, addr, phase, hash, addr);
  }

  lemma AdvanceKeepsAddresses(s: Server, h: int, r: int, step: int)
    ensures AddressesOf(Advance(s, h, r, step).Rows()) == AddressesOf(s.Rows())
  {
    SameAddresses(s.Rows(), "", Prevote, "");
    hide AddressesOf, ClearVotes;
  }

  lemma ReplacedAddresses(s: Server, rows: seq<Row>)
    requires AddressesOf(rows) == AddressesOf(s.Rows())
    ensures AddressesOf(WithRows(s, rows).Rows()) == AddressesOf(s.Rows())
  {
    hide AddressesOf;
  }

  lemma VoteKeepsAddresses(s: Server, e: Input)
    requires e.Vote?
    ensures AddressesOf(Handle(s, e).server.Rows()) == AddressesOf(s.Rows())
  {
    var moved := Advance(s, e.height, e.round, StepOf(e.phase));
    AdvanceKeepsAddresses(s, e.height, e.round, StepOf(e.phase));
    SameAddresses(moved.Rows(), e.addr, e.phase, e.hash);
    VoteOutcome(s, e);
    hide AddressesOf, FirstIndex, Advance, Refuses, Handle, CellAt, WithRows;
    if Listed(moved, e.addr) {
      var i := FirstIndex(moved.Rows(), e.addr);
      ReplacedAddresses(moved, moved.Rows()[i := moved.Rows()[i].Fill(e.phase, e.hash)]);
    }
  }

  lemma HandleKeepsAddresses(s: Server, e: Input)
    requires !e.Validators?
    ensures AddressesOf(Handle(s, e).server.Rows()) == AddressesOf(s.Rows())
  {
    SameAddresses(s.Rows(), "", Prevote, "");
    hide AddressesOf, FirstIndex, MarkRows, ClearVotes, AppendBlock, Refuses, Advance;
    match e
    case NewBlock(h, time) =>
      AdvanceKeepsAddresses(s.(committed := h, blocks := AppendBlock(s.blocks, BlockSample(h, time, 0))), h + 1, 0, 1);
    case NewRound(h, r, step, proposer) =>
      AdvanceKeepsAddresses(s, h, r, step);
      SameAddresses(Advance(s, h, r, step).Rows(), proposer, Prevote, "");
    case Vote(_, _, _, _, _) => VoteKeepsAddresses(s, e);
    case HttpConsensus(h, r, step, _, _) =>
      AdvanceKeepsAddresses(s, h, r, step);
      SameAddresses(Advance(s, h, r, step).Rows(), "", Prevote, "");
    case Status(_) =>
    case LatestBlock(_) =>
  }

  lemma {:induction false} RunIsDistinct(run: seq<Input>)
    requires ListsDistinct(run)
    ensures DistinctRows(After(EMPTY_SERVER, run).Rows())
  {
    if run != [] {
      RunIsDistinct(run[..|run| - 1]);
      hide Handle;
      HandleKeepsDistinct(After(EMPTY_SERVER, run[..|run| - 1]), run[|run| - 1]);
    }
  }

  /** The context of s, in the order contexts are compared. */
  function ContextOf(s: Server): (int, int) { (s.height, s.round) }

  /** Input i of more ends in the context of s and does not take the observations of addr away. */
  ghost predicate LeavesAt(s: Server, more: seq<Input>, i: nat, addr: string)
    requires i < |more|
  {
    ContextOf(After(s, more[..i + 1])) == ContextOf(s) && !Wipes(After(s, more[..i]), more[i], addr)
  }

  ghost predicate Leaves(s: Server, more: seq<Input>, addr: string)
  {
    forall i :: 0 <= i < |more| ==> LeavesAt(s, more, i, addr)
  }

  lemma LeavesFront(s: Server, more: seq<Input>, addr: string)
    requires more != [] && Leaves(s, more, addr)
    ensures var n := |more| - 1;
      && Leaves(s, more[..n], addr) && LeavesAt(s, more, n, addr)
      && ContextOf(After(s, more[..n])) == ContextOf(s) == ContextOf(After(s, more))
  {
    hide After, Wipes;
    var n := |more| - 1;
    forall i | 0 <= i < n ensures LeavesAt(s, more[..n], i, addr) {
      assert more[..n][..i + 1] == more[..i + 1] && more[..n][..i] == more[..i];
      assert LeavesAt(s, more, i, addr);
    }
    assert LeavesAt(s, more, n, addr);
    assert more[..n + 1] == more;
    if n > 0 { assert LeavesAt(s, more, n - 1, addr); } else { NoInput(s); }
  }

  lemma {:induction false} AfterAppend(s: Server, run: seq<Input>, more: seq<Input>)
    ensures After(s, run + more) == After(After(s, run), more)
    decreases |more|
  {
    hide After, Handle;
    if more == [] {
      assert run + more == run;
      NoInput(After(s, run));
    } else {
      assert (run + more)[..|run + more| - 1] == run + more[..|more| - 1];
      AfterAppend(s, run, more[..|more| - 1]);
      LastInput(s, run + more);
      LastInput(After(s, run), more);
    }
  }

  lemma LastKeepsCell(run: seq<Input>, e: Input, addr: string, phase: Phase)
    requires ListsDistinct(run) && CellAt(After(EMPTY_SERVER, run), addr, phase) != Absent
    requires var s := After(EMPTY_SERVER, run); ContextOf(Handle(s, e).server) == ContextOf(s) && !Wipes(s, e, addr)
    ensures CellAt(Handle(After(EMPTY_SERVER, run), e).server, addr, phase)
      == CellAt(After(EMPTY_SERVER, run), addr, phase)
  {
    RunIsDistinct(run);
    RunFacts(run);
    hide After, Handle, ContextOk, Filled, Floor, Ordered, CellAt, Listed, DistinctRows;
    CellsExactly(After(EMPTY_SERVER, run), e, addr, phase);
  }

  /**
   A vote that is shown stays shown, unchanged, through any further inputs that keep the context and list its
   validator: validator refreshes, repeated or conflicting votes, rounds, blocks and statuses.
   */
  lemma {:induction false} ShownVoteStays(run: seq<Input>, more: seq<Input>, addr: string, phase: Phase)
    requires ListsDistinct(run + more)
    requires var s := After(EMPTY_SERVER, run); CellAt(s, addr, phase) != Absent && Leaves(s, more, addr)
    ensures CellAt(After(EMPTY_SERVER, run + more), addr, phase) == CellAt(After(EMPTY_SERVER, run), addr, phase)
    decreases |more|
  {
    hide After, Handle, CellAt, Wipes, Leaves;
    if more == [] {
      assert run + more == run;
    } else {
      var front, n := more[..|more| - 1], |more| - 1;
      var s := After(EMPTY_SERVER, run);
      assert (run + more)[..|run + front|] == run + front;
      forall i | 0 <= i < |run + front| ensures (run + front)[i] == (run + more)[i] { }
      LeavesFront(s, more, addr);
      ShownVoteStays(run, front, addr, phase);
      AfterAppend(EMPTY_SERVER, run, front);
      AfterAppend(EMPTY_SERVER, run, more);
      LastInput(s, more);
      LastKeepsCell(run + front, more[n], addr, phase);
    }
  }

  lemma LastInput(s: Server, more: seq<Input>)
    requires more != []
    ensures After(s, more) == Handle(After(s, more[..|more| - 1]), more[|more| - 1]).server
  {
  }

  lemma NoInput(s: Server)
    ensures After(s, []) == s
  {
  }
}
