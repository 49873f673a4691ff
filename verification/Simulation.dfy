/**
 web/src/lib/stores.ts: the consensus part of reduceEvent, and its agreement with the server. A page is
 the consensus projection of the browser's snapshot; patches are the events the handlers publish.
 */
module Simulation {
  import opened Common
  import opened Consensus

  datatype Page = Page(height: int, committed: int, round: int, step: int, rows: seq<Row>)

  /** The projection of a full state snapshot. */
  function PageOf(s: Server): Page { Page(s.height, s.committed, s.round, s.step, s.Rows()) }

  // ---------- the reducer ----------

  function FillRows(rows: seq<Row>, addr: string, phase: Phase, hash: string): (r: seq<Row>)
    ensures |r| == |rows|
    ensures forall i ::
      0 <= i < |rows| ==> r[i] == if rows[i].address == addr then rows[i].Fill(phase, hash) else rows[i]
  {
    if rows == [] then []
    else
      [if rows[0].address == addr then rows[0].Fill(phase, hash) else rows[0]]
      + FillRows(rows[1..], addr, phase, hash)
  }

  predicate Stale(p: Page, h: int, r: int) { h <= p.committed || h < p.height || (h == p.height && r < p.round) }

  predicate Advances(p: Page, h: int, r: int) { h > p.height || r > p.round }

  /** vote.received */
  function ReduceVote(p: Page, h: int, r: int, phase: Phase, addr: string, hash: string): Page
  {
    if Stale(p, h, r) || !Known(p.rows, addr) then p else
      var advanced := Advances(p, h, r);
      var rows := if advanced then ClearVotes(p.rows) else p.rows;
      var i := FirstIndex(rows, addr);
      if i < |rows| && rows[i].At(phase) != Absent then p
      else Page(h, p.committed, r, Max(if advanced then 0 else p.step, StepOf(phase)),
        FillRows(rows, addr, phase, hash))
  }

  /** round.changed */
  function ReduceRound(p: Page, h: int, r: int, step: int, proposer: string): Page
  {
    if Stale(p, h, r) then p else
      var advanced := Advances(p, h, r);
      var rows := if advanced then ClearVotes(p.rows) else p.rows;
      Page(h, p.committed, r, if advanced then step else Max(p.step, step), if proposer != ""
        then MarkRows(rows, proposer) else rows)
  }

  /** block.committed */
  function ReduceBlock(p: Page, h: int): Page
  {
    if h == 0 || h <= p.committed then p
    else if p.height <= h then Page(h + 1, h, 0, 1, ClearVotes(p.rows))
    else p.(committed := h)
  }

  function Reduce(p: Page, e: Patch): Page
  {
    match e
    case BlockCommitted(h) => ReduceBlock(p, h)
    case RoundChanged(h, r, step, proposer) => ReduceRound(p, h, r, step, proposer)
    case VoteReceived(h, r, phase, addr, hash) => ReduceVote(p, h, r, phase, addr, hash)
  }

  function Fold(p: Page, events: seq<Patch>): Page
  {
    if events == [] then p else Reduce(Fold(p, events[..|events| - 1]), events[|events| - 1])
  }

  function Apply(p: Page, e: Option<Patch>): Page { if e.Some? then Reduce(p, e.value) else p }

  // ---------- one step ----------

  ghost predicate DistinctRows(rows: seq<Row>)
  {
    forall i, j :: 0 <= i < j < |rows| ==> rows[i].address != rows[j].address
  }

  /**
   The guard under which the browser follows one streamed input exactly; it reads only the server's state before it.
   */
  predicate Follows(s: Server, e: Input)
  {
    match e
    case NewBlock(h, time) =>
      if h <= 0 || h < s.committed || Stored(s.blocks, h) then true
      else if h > s.committed then !(h + 1 == s.height && s.round == 0 && s.step < 1)
      else h + 1 < s.height || (h + 1 == s.height && (s.round != 0 || s.step >= 1))
    case NewRound(h, r, step, proposer) => true
    case Vote(h, r, phase, addr, hash) =>
      Refuses(s, h, r) || Known(s.Rows(), addr) || !(NewContext(s, h, r) || StepOf(phase) > s.step)
    case _ => true
  }

  predicate Streamed(e: Input) { e.NewBlock? || e.NewRound? || e.Vote? }

  lemma FirstOfCleared(rows: seq<Row>, addr: string)
    ensures FirstIndex(ClearVotes(rows), addr) == FirstIndex(rows, addr)
  {
    var cleared := ClearVotes(rows);
    assert forall j :: 0 <= j < |rows| ==> cleared[j].address == rows[j].address;
  }

  /** Filling by address and filling at the first match agree when addresses are distinct. */
  lemma FillIsUpdate(rows: seq<Row>, addr: string, phase: Phase, hash: string)
    requires DistinctRows(rows)
    ensures var i := FirstIndex(rows, addr);
      i < |rows| ==> FillRows(rows, addr, phase, hash) == rows[i := rows[i].Fill(phase, hash)]
  {
    var i := FirstIndex(rows, addr);
    if i < |rows| {
      var filled := FillRows(rows, addr, phase, hash);
      assert forall j :: 0 <= j < |rows| ==> filled[j] == rows[i := rows[i].Fill(phase, hash)][j];
    }
  }

  lemma ClearedDistinct(rows: seq<Row>)
    requires DistinctRows(rows)
    ensures DistinctRows(ClearVotes(rows))
  {
  }

  lemma BlockFollows(s: Server, h: int, time: int)
    requires ContextOk(s)
    ensures var x := HandleNewBlock(s, h, time);
      Apply(PageOf(s), x.patch) == PageOf(x.server) <==> Follows(s, NewBlock(h, time))
  {
    hide AppendBlock, Stored, ClearVotes;
  }

  lemma RoundFollows(s: Server, h: int, r: int, step: int, proposer: string)
    requires ContextOk(s)
    ensures var x := HandleNewRound(s, h, r, step, proposer); Apply(PageOf(s), x.patch) == PageOf(x.server)
  {
    hide ClearVotes, MarkRows;
    assert ClearVotes([]) == [] && MarkRows([], proposer) == [];
  }

  lemma AdvancedPage(s: Server, h: int, r: int, step: int)
    requires !Refuses(s, h, r)
    ensures var m := Advance(s, h, r, step);
      && Advances(PageOf(s), h, r) == NewContext(s, h, r) && !Stale(PageOf(s), h, r)
      && m.Rows() == (if NewContext(s, h, r) then ClearVotes(s.Rows()) else s.Rows())
      && m.height == h && m.round == r && m.committed == s.committed
      && m.step == if NewContext(s, h, r) then step else Max(s.step, step)
  {
    assert ClearVotes([]) == [];
  }

  lemma KnownVoteFollows(s: Server, h: int, r: int, phase: Phase, addr: string, hash: string)
    requires ContextOk(s) && Filled(s) && DistinctRows(s.Rows()) && !Refuses(s, h, r) && Known(s.Rows(), addr)
    ensures var x := HandleVote(s, h, r, phase, addr, hash); Apply(PageOf(s), x.patch) == PageOf(x.server)
  {
    var m := Advance(s, h, r, StepOf(phase));
    AdvancedPage(s, h, r, StepOf(phase));
    FirstOfCleared(s.Rows(), addr);
    ClearedDistinct(s.Rows());
    FillIsUpdate(m.Rows(), addr, phase, hash);
    var i := FirstIndex(m.Rows(), addr);
    if m.Rows()[i].At(phase) != Absent {
      assert !NewContext(s, h, r);
      assert s.step >= StepOf(phase);
      assert m == s.(step := s.step);
    }
    hide ClearVotes, FillRows, FirstIndex, Advance, Advances, NewContext, DistinctRows, ContextOk;
  }

  lemma UnknownVoteFollows(s: Server, h: int, r: int, phase: Phase, addr: string, hash: string)
    requires ContextOk(s) && !Refuses(s, h, r) && !Known(s.Rows(), addr)
    ensures var x := HandleVote(s, h, r, phase, addr, hash);
      Apply(PageOf(s), x.patch) == PageOf(x.server) <==> !(NewContext(s, h, r) || StepOf(phase) > s.step)
  {
    AdvancedPage(s, h, r, StepOf(phase));
    FirstOfCleared(s.Rows(), addr);
    hide ClearVotes, FillRows, FirstIndex, Advance, Advances, ContextOk, Refuses;
  }

  /**
   One streamed input: from a page that shows the server's state, the browser ends up showing the server's
   next state if and only if the guard held.
   */
  lemma StepFollowsExactly(s: Server, e: Input)
    requires ContextOk(s) && Filled(s) && DistinctRows(s.Rows()) && Streamed(e)
    ensures Apply(PageOf(s), Handle(s, e).patch) == PageOf(Handle(s, e).server) <==> Follows(s, e)
  {
    hide ContextOk, Filled, HandleNewBlock, HandleNewRound, ReduceVote, ReduceRound, ReduceBlock, DistinctRows;
    match e
    case NewBlock(h, time) => BlockFollows(s, h, time);
    case NewRound(h, r, step, proposer) => RoundFollows(s, h, r, step, proposer);
    case Vote(h, r, phase, addr, hash) =>
      if !Refuses(s, h, r) {
        if Known(s.Rows(), addr) {
          KnownVoteFollows(s, h, r, phase, addr, hash);
        } else {
          UnknownVoteFollows(s, h, r, phase, addr, hash);
        }
      }
  }

  // ---------- whole runs ----------

  function AddressesOf(rows: seq<Row>): (r: seq<string>)
    ensures |r| == |rows| && forall i :: 0 <= i < |rows| ==> r[i] == rows[i].address
  {
    if rows == [] then [] else [rows[0].address] + AddressesOf(rows[1..])
  }

  function BlankRows(addresses: seq<string>): (r: seq<Row>)
    ensures |r| == |addresses| && forall i :: 0 <= i < |r| ==> r[i] == Row(addresses[i], Absent, Absent, false)
  {
    if addresses == [] then [] else [Row(addresses[0], Absent, Absent, false)] + BlankRows(addresses[1..])
  }

  /** The empty state once the roster is known. */
  function Seeded(roster: seq<string>): Server { EMPTY_SERVER.(lastRound := Some(RoundView(0, BlankRows(roster)))) }

  /** Streamed inputs of a chain whose voters are on the roster and whose steps are recognised. */
  predicate Recognised(roster: seq<string>, e: Input)
  {
    match e
    case NewBlock(h, time) => true
    case NewRound(h, r, step, proposer) => step >= 1
    case Vote(h, r, phase, addr, hash) => addr in roster
    case _ => false
  }

  ghost predicate RecognisedRun(roster: seq<string>, run: seq<Input>)
  {
    forall i :: 0 <= i < |run| ==> Recognised(roster, run[i])
  }

  /** What such runs keep: the roster, a recognised step, and the newest committed block on record. */
  ghost predicate Steady(roster: seq<string>, s: Server)
  {
    && ContextOk(s) && Filled(s) && AddressesOf(s.Rows()) == roster && s.lastRound.Some?
    && (s.height > 0 ==> s.step >= 1)
    && BlocksOk(s.blocks) && NewestStored(s)
  }

  /** The committed height is that of the newest stored block. */
  ghost predicate NewestStored(s: Server)
  {
    if s.blocks == [] then s.committed == 0 else s.blocks[|s.blocks| - 1].height == s.committed
  }

  ghost predicate DistinctRoster(roster: seq<string>)
  {
    forall i, j :: 0 <= i < j < |roster| ==> roster[i] != roster[j]
  }

  lemma SteadyFollows(roster: seq<string>, s: Server, e: Input)
    requires DistinctRoster(roster) && Steady(roster, s) && Recognised(roster, e)
    ensures Apply(PageOf(s), Handle(s, e).patch) == PageOf(Handle(s, e).server)
  {
    var rows := s.Rows();
    assert DistinctRows(rows) by {
      forall i, j | 0 <= i < j < |rows| ensures rows[i].address != rows[j].address {
        assert roster[i] == rows[i].address;
      }
    }
    StepFollowsExactly(s, e);
    assert Follows(s, e) by {
      if e.NewBlock? && e.height == s.committed > 0 {
        assert Stored(s.blocks, e.height) by { assert s.blocks[|s.blocks| - 1].height == e.height; }
      }
      if e.Vote? { RosterKnows(roster, rows, e.addr); }
    }
  }

  lemma RosterKnows(roster: seq<string>, rows: seq<Row>, addr: string)
    requires AddressesOf(rows) == roster && addr in roster
    ensures Known(rows, addr)
  {
    var i :| 0 <= i < |roster| && roster[i] == addr;
    assert rows[i].address == addr;
  }

  lemma KeptAddresses(rows: seq<Row>, addr: string, phase: Phase, hash: string, proposer: string)
    ensures AddressesOf(ClearVotes(rows)) == AddressesOf(rows)
      && AddressesOf(MarkRows(rows, proposer)) == AddressesOf(rows)
    ensures var i := FirstIndex(rows, addr);
      i < |rows| ==> AddressesOf(rows[i := rows[i].Fill(phase, hash)]) == AddressesOf(rows)
  {
    assert AddressesOf(ClearVotes(rows)) == AddressesOf(rows);
    assert AddressesOf(MarkRows(rows, proposer)) == AddressesOf(rows);
  }

  lemma BlockKeepsSteady(roster: seq<string>, s: Server, h: int, time: int)
    requires Steady(roster, s)
    ensures var t := HandleNewBlock(s, h, time).server; BlocksOk(t.blocks) && NewestStored(t)
  {
    if s.blocks != [] {
      assert Stored(s.blocks, s.committed) by { assert s.blocks[|s.blocks| - 1].height == s.committed; }
    }
    if !(h <= 0 || h < s.committed || Stored(s.blocks, h)) { AppendBlockFacts(s.blocks, BlockSample(h, time, 0)); }
  }

  lemma RowsKeepRoster(roster: seq<string>, s: Server, e: Input)
    requires Steady(roster, s) && Recognised(roster, e)
    ensures var t := Handle(s, e).server; AddressesOf(t.Rows()) == roster && t.lastRound.Some?
  {
    hide ContextOk, Filled, BlocksOk, NewestStored, AppendBlock, Stored, AddressesOf, ClearVotes, MarkRows, FirstIndex;
    var rows := s.Rows();
    match e
    case NewBlock(h, time) => KeptAddresses(rows, "", Prevote, "", "");
    case NewRound(h, r, step, proposer) =>
      KeptAddresses(rows, "", Prevote, "", proposer);
      KeptAddresses(ClearVotes(rows), "", Prevote, "", proposer);
    case Vote(h, r, phase, addr, hash) =>
      KeptAddresses(rows, addr, phase, hash, "");
      KeptAddresses(ClearVotes(rows), addr, phase, hash, "");
  }

  lemma StepsStayRecognised(roster: seq<string>, s: Server, e: Input)
    requires Steady(roster, s) && Recognised(roster, e)
    ensures var t := Handle(s, e).server; t.height > 0 ==> t.step >= 1
  {
    hide Filled, BlocksOk, NewestStored, AppendBlock, Stored, AddressesOf, ClearVotes, MarkRows, FirstIndex;
  }

  lemma BlocksKept(roster: seq<string>, s: Server, e: Input)
    requires Steady(roster, s) && Recognised(roster, e) && !e.NewBlock?
    ensures var t := Handle(s, e).server; t.blocks == s.blocks && t.committed == s.committed
  {
    hide Filled, BlocksOk, NewestStored, AddressesOf, ClearVotes, MarkRows, FirstIndex;
  }

  lemma HandleKeepsSteady(roster: seq<string>, s: Server, e: Input)
    requires Steady(roster, s) && Recognised(roster, e)
    ensures Steady(roster, Handle(s, e).server)
  {
    HandleKeepsContext(s, e);
    HandleKeepsFilled(s, e);
    RowsKeepRoster(roster, s, e);
    StepsStayRecognised(roster, s, e);
    if e.NewBlock? { BlockKeepsSteady(roster, s, e.height, e.time); } else { BlocksKept(roster, s, e); }
    hide Filled, BlocksOk, Handle, AddressesOf, ContextOk;
    if e.NewBlock? { BlockIsHandled(s, e.height, e.time); }
  }

  lemma BlockIsHandled(s: Server, h: int, time: int)
    ensures Handle(s, NewBlock(h, time)).server == HandleNewBlock(s, h, time).server
  {
  }

  lemma SeededIsSteady(roster: seq<string>)
    ensures Steady(roster, Seeded(roster))
  {
    assert AddressesOf(BlankRows(roster)) == roster;
  }

  lemma {:induction false} RunIsSteady(roster: seq<string>, run: seq<Input>)
    requires RecognisedRun(roster, run)
    ensures Steady(roster, After(Seeded(roster), run))
  {
    if run == [] {
      SeededIsSteady(roster);
    } else {
      hide Steady, Handle, Recognised;
      RunIsSteady(roster, run[..|run| - 1]);
      HandleKeepsSteady(roster, After(Seeded(roster), run[..|run| - 1]), run[|run| - 1]);
    }
  }

  lemma FoldMore(p: Page, events: seq<Patch>, e: Option<Patch>)
    ensures Fold(p, events + if e.Some? then [e.value] else []) == Apply(Fold(p, events), e)
  {
    if e.Some? {
      assert (events + [e.value])[..|events|] == events;
    } else {
      assert events + [] == events;
    }
  }

  /**
   Two-language simulation: along any run of streamed inputs with a fixed roster, known voters and
   recognised steps, folding the published events keeps the page equal to the server, cell by cell.
   */
  lemma {:induction false} BrowserFollowsServer(roster: seq<string>, run: seq<Input>)
    requires DistinctRoster(roster) && RecognisedRun(roster, run)
    ensures Fold(PageOf(Seeded(roster)), Published(Seeded(roster), run)) == PageOf(After(Seeded(roster), run))
  {
    if run != [] {
      var front, e := run[..|run| - 1], run[|run| - 1];
      BrowserFollowsServer(roster, front);
      RunIsSteady(roster, front);
      hide Steady, Handle, Reduce, Recognised, DistinctRoster;
      var s := After(Seeded(roster), front);
      SteadyFollows(roster, s, e);
      FoldMore(PageOf(Seeded(roster)), Published(Seeded(roster), front), Handle(s, e).patch);
    }
  }

  // ---------- where the browser does not follow ----------

  /** A vote of a validator the page does not list moves the server's context and not the browser's. */
  lemma UnknownVoterIsNotFollowed()
    ensures var s := Seeded(["A"]);
      Apply(PageOf(s),
        Handle(s, Vote(1, 0, Prevote, "B", "")).patch) != PageOf(Handle(s, Vote(1, 0, Prevote, "B", "")).server)
  {
    assert FirstIndex(BlankRows(["A"]), "B") == 1;
    assert FirstIndex(ClearVotes(BlankRows(["A"])), "B") == 1;
  }

  /** A block at the committed height that is not in the history moves the server on and not the browser. */
  lemma CommittedBlockIsNotFollowed()
    ensures var s := HandleStatus(Seeded(["A"]), 5);
      Apply(PageOf(s), Handle(s, NewBlock(5, 0)).patch) != PageOf(Handle(s, NewBlock(5, 0)).server)
  {
  }

  /** A round announced with a step the table does not know leaves the next block's step 1 to the server alone. */
  lemma UnknownStepIsNotFollowed()
    ensures var s := Handle(Seeded(["A"]), NewRound(2, 0, 0, "")).server;
      Apply(PageOf(s), Handle(s, NewBlock(1, 0)).patch) != PageOf(Handle(s, NewBlock(1, 0)).server)
  {
  }
}
