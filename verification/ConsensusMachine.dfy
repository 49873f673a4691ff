/** The consensus state as the source runs it: one record mutated under a lock, vote rows updated in loops. */
module ConsensusMachine {
  import opened Common
  import opened Consensus

  class ConsensusState {
    var height: int
    var round: int
    var step: int
    var committed: int
    var hasRound: bool
    var lastRound: int
    var rows: seq<Row>
    var validatorHeight: int
    var blocks: seq<BlockSample>

    /** rows and lastRound mean something once hasRound is set: LastRound is nil before. */
    ghost function State(): Server
      reads this
    {
      Server(height, round, step, committed, if hasRound then Some(RoundView(lastRound, rows))
        else None, validatorHeight, blocks)
    }

    constructor ()
      ensures State() == EMPTY_SERVER
    {
      height, round, step, committed, hasRound, lastRound, rows, validatorHeight, blocks := 0, 0, 0, 0, false, 0, [], 0,
        [];
    }

    method ClearRoundVotes()
      modifies this`rows
      ensures State()
        == (if hasRound then old(State()).(lastRound := Some(RoundView(lastRound, ClearVotes(old(rows)))))
          else old(State()))
      ensures rows == if hasRound then ClearVotes(old(rows)) else old(rows)
    {
      if !hasRound { return; }
      for i := 0 to |rows|
        invariant |rows| == |old(rows)|
        invariant forall j :: 0 <= j < i ==> rows[j] == Cleared(old(rows)[j])
        invariant forall j :: i <= j < |rows| ==> rows[j] == old(rows)[j]
      {
        rows := rows[i := rows[i].(prevote := Absent, precommit := Absent, isProposer := false)];
      }
      assert rows == ClearVotes(old(rows));
    }

    method MarkProposer(addr: string)
      modifies this`rows
      ensures State()
        == if addr == "" then old(State()) else WithRows(old(State()), MarkRows(old(State()).Rows(), addr))
    {
      if !hasRound || addr == "" { return; }
      for i := 0 to |rows|
        invariant |rows| == |old(rows)|
        invariant forall j :: 0 <= j < i ==> rows[j] == old(rows)[j].(isProposer := old(rows)[j].address == addr)
        invariant forall j :: i <= j < |rows| ==> rows[j] == old(rows)[j]
      {
        rows := rows[i := rows[i].(isProposer := rows[i].address == addr)];
      }
      assert rows == MarkRows(old(rows), addr);
    }

    method AdvanceRound(h: int, r: int, st: int) returns (accepted: bool)
      modifies this
      ensures accepted == !Refuses(old(State()), h, r)
      ensures State() == if accepted then Advance(old(State()), h, r, st) else old(State())
    {
      if h <= committed || h < height || r < 0 || r > MAX_INT32 { return false; }
      if h == height && r < round { return false; }
      if h != height || r != round {
        ClearRoundVotes();
        height, round, step := h, r, st;
        if hasRound { lastRound := r; }
      } else if st > step {
        step := st;
      }
      accepted := true;
    }

    method StoreBlock(sample: BlockSample)
      modifies this`blocks
      ensures State() == old(State()).(blocks := AppendBlock(old(blocks), sample))
    {
      var timed := sample;
      var n := |blocks|;
      if n > 0 {
        var last := blocks[n - 1];
        if sample.height <= last.height { return; }
        if sample.height == last.height + 1 && sample.time > last.time {
          timed := sample.(blockTimeMs := (sample.time - last.time) / 1_000_000);
        }
      }
      blocks := blocks + [timed];
      if |blocks| > BLOCK_HISTORY_LIMIT { blocks := blocks[|blocks| - BLOCK_HISTORY_LIMIT..]; }
    }

    /** The patch is what the handler publishes. */
    method NewBlock(h: int, time: int) returns (patch: Option<Patch>)
      modifies this
      ensures var r := HandleNewBlock(old(State()), h, time); State() == r.server && patch == r.patch
    {
      if h <= 0 { return None; }
      if h < committed { return None; }
      for i := 0 to |blocks|
        invariant forall j :: 0 <= j < i ==> blocks[j].height != h
      {
        if blocks[i].height == h { return None; }
      }
      if h > committed { committed := h; }
      StoreBlock(BlockSample(h, time, 0));
      var advanced := AdvanceRound(h + 1, 0, 1);
      patch := Some(BlockCommitted(h));
    }

    method NewRound(h: int, r: int, st: int, proposer: string) returns (patch: Option<Patch>)
      modifies this
      ensures var x := HandleNewRound(old(State()), h, r, st, proposer); State() == x.server && patch == x.patch
    {
      var accepted := AdvanceRound(h, r, st);
      if !accepted { return None; }
      MarkProposer(proposer);
      patch := Some(RoundChanged(h, r, st, proposer));
    }

    method Vote(h: int, r: int, phase: Phase, addr: string, hash: string) returns (patch: Option<Patch>)
      modifies this
      ensures var x := HandleVote(old(State()), h, r, phase, addr, hash); State() == x.server && patch == x.patch
    {
      var accepted := AdvanceRound(h, r, if phase == Prevote then 4 else 6);
      if !accepted { return None; }
      patch := Some(VoteReceived(h, r, phase, addr, hash));
      if !hasRound { return; }
      ghost var moved := rows;
      for i := 0 to |rows|
        invariant rows == moved && forall j :: 0 <= j < i ==> rows[j].address != addr
      {
        if rows[i].address == addr {
          assert FirstIndex(moved, addr) == i;
          if rows[i].At(phase) != Absent { return None; }
          rows := rows[i := rows[i].Fill(phase, hash)];
          return;
        }
      }
    }

    method Status(latest: int)
      modifies this
      ensures State() == HandleStatus(old(State()), latest)
    {
      if latest > committed {
        committed := latest;
        if height > 0 && height <= latest {
          ClearRoundVotes();
          height, round, step := 0, 0, 0;
          if hasRound { lastRound := 0; }
        }
      }
    }

    method HttpConsensus(h: int, r: int, st: int, streaming: bool, streamingAfter: bool) returns (patch: Option<Patch>)
      modifies this
      ensures var x := HandleHttp(old(State()), h, r, st, streaming, streamingAfter);
        State() == x.server && patch == x.patch
    {
      if h <= 0 || r < 0 || st < 0 { return None; }
      if streaming { return None; }
      var accepted := AdvanceRound(h, r, st);
      if !accepted { return None; }
      if !streamingAfter { ClearRoundVotes(); }
      patch := Some(RoundChanged(h, r, st, ""));
    }

    method Validators(addresses: seq<string>, h: int) returns (accepted: bool)
      modifies this
      ensures State() == HandleValidators(old(State()), addresses, h) && (accepted <==> h >= old(validatorHeight))
    {
      if h < validatorHeight { return false; }
      var previous: map<string, Row> := map[];
      ghost var before := if hasRound && lastRound == round then rows else [];
      if hasRound && lastRound == round {
        for i := 0 to |rows|
          invariant forall a ::
            (if a in previous then previous[a] else Row(a, Absent, Absent, false)) == Previous(rows[..i], a)
        {
          assert rows[..i + 1][..i] == rows[..i];
          previous := previous[rows[i].address := rows[i]];
        }
        assert rows[..|rows|] == rows;
      }
      var merged: seq<Row> := [];
      for i := 0 to |addresses|
        invariant merged == MergeRows(before, addresses[..i])
      {
        assert addresses[..i + 1][..i] == addresses[..i];
        var a := addresses[i];
        merged := merged + [if a in previous then previous[a] else Row(a, Absent, Absent, false)];
      }
      assert addresses[..|addresses|] == addresses;
      hasRound, lastRound, rows, validatorHeight := true, round, merged, h;
      accepted := true;
    }
  }
}
