/**
 Patches that a newer snapshot already reflects: replaying them changes nothing. This is what makes it
 safe to deliver a snapshot and then events that were published before it was taken.
 */
module Replay {
  import opened Common
  import opened Consensus
  import opened Simulation

  // ---------- contexts of a page only grow ----------

  /** q is p after some events. */
  ghost predicate Ahead(p: Page, q: Page)
  {
    p.committed <= q.committed && LexLeq((p.height, p.round), (q.height, q.round))
  }

  lemma ReduceMovesAhead(p: Page, e: Patch)
    ensures Ahead(p, Reduce(p, e))
  {
    hide ClearVotes, FillRows, MarkRows, FirstIndex;
  }

  lemma StaleStays(p: Page, q: Page, h: int, r: int)
    requires Ahead(p, q) && Stale(p, h, r)
    ensures Stale(q, h, r)
  {
  }

  // ---------- what a folded event leaves behind ----------

  /** The event is past, or the page already shows it. */
  ghost predicate Reflected(p: Page, e: Patch)
  {
    match e
    case BlockCommitted(h) => h == 0 || h <= p.committed
    case RoundChanged(h, r, step, proposer) =>
      Stale(p, h, r)
        || (h == p.height && r == p.round && step <= p.step && (proposer == "" || MarkRows(p.rows, proposer) == p.rows))
    case VoteReceived(h, r, phase, addr, hash) =>
      Stale(p, h, r) || !Known(p.rows, addr)
      || (h == p.height && r == p.round && p.rows[FirstIndex(p.rows, addr)].At(phase) != Absent)
  }

  lemma ReflectedIsAbsorbed(p: Page, e: Patch)
    requires Reflected(p, e)
    ensures Reduce(p, e) == p
  {
    hide ClearVotes, FillRows, MarkRows;
  }

  lemma MarkedIsMarked(rows: seq<Row>, proposer: string)
    ensures MarkRows(MarkRows(rows, proposer), proposer) == MarkRows(rows, proposer)
  {
  }

  lemma FilledIsFilled(rows: seq<Row>, addr: string, phase: Phase, hash: string)
    requires Known(rows, addr)
    ensures var filled := FillRows(rows, addr, phase, hash);
      FirstIndex(filled, addr) == FirstIndex(rows, addr) && filled[FirstIndex(rows, addr)].At(phase) != Absent
  {
    SameAddressesSameIndex(rows, FillRows(rows, addr, phase, hash), addr);
  }

  lemma SameAddressesSameIndex(rows: seq<Row>, others: seq<Row>, addr: string)
    requires |rows| == |others| && forall j :: 0 <= j < |rows| ==> rows[j].address == others[j].address
    ensures FirstIndex(rows, addr) == FirstIndex(others, addr)
  {
  }

  /** Right after it is folded in, an event is reflected. */
  lemma FoldedIsReflected(p: Page, e: Patch)
    ensures Reflected(Reduce(p, e), e)
  {
    hide ClearVotes, FillRows, MarkRows, FirstIndex;
    match e
    case BlockCommitted(h) =>
    case RoundChanged(h, r, step, proposer) =>
      MarkedIsMarked(p.rows, proposer);
      MarkedIsMarked(ClearVotes(p.rows), proposer);
    case VoteReceived(h, r, phase, addr, hash) =>
      if !Stale(p, h, r) && Known(p.rows, addr) { VoteIsReflected(p, h, r, phase, addr, hash); }
  }

  lemma VoteIsReflected(p: Page, h: int, r: int, phase: Phase, addr: string, hash: string)
    requires !Stale(p, h, r) && Known(p.rows, addr)
    ensures Reflected(ReduceVote(p, h, r, phase, addr, hash), VoteReceived(h, r, phase, addr, hash))
  {
    hide ClearVotes, FillRows, MarkRows, FirstIndex;
    FirstOfCleared(p.rows, addr);
    if Advances(p, h, r) {
      FilledIsFilled(ClearVotes(p.rows), addr, phase, hash);
    } else {
      FilledIsFilled(p.rows, addr, phase, hash);
    }
  }

  // ---------- reflection lasts ----------

  /** At most one proposer is announced for a height and round. */
  ghost predicate OneProposer(e: Patch, f: Patch)
  {
    (e.RoundChanged? && f.RoundChanged? && e.height == f.height && e.round == f.round && e.proposer != ""
      && f.proposer != "") ==>
      e.proposer == f.proposer
  }

  lemma KnownStays(p: Page, f: Patch, addr: string)
    ensures Known(Reduce(p, f).rows, addr) == Known(p.rows, addr)
    ensures FirstIndex(Reduce(p, f).rows, addr) == FirstIndex(p.rows, addr)
  {
    assert |Reduce(p, f).rows| == |p.rows|
      && forall j :: 0 <= j < |p.rows| ==> p.rows[j].address == Reduce(p, f).rows[j].address by { hide FirstIndex; }
    hide Reduce;
    SameAddressesSameIndex(p.rows, Reduce(p, f).rows, addr);
  }

  /** Within one context cells stay filled and steps stay reached. */
  lemma ContextKeeps(p: Page, f: Patch, i: nat, phase: Phase)
    requires i < |p.rows| && Reduce(p, f).height == p.height && Reduce(p, f).round == p.round
      && !(f.BlockCommitted? && Reduce(p, f) != p.(committed := Reduce(p, f).committed))
    requires p.rows[i].At(phase) != Absent
    ensures Reduce(p, f).rows[i].At(phase) != Absent
  {
  }

  /** A block that leaves the height in place leaves the page's rows in place. */
  lemma BlockKeepsContext(p: Page, h: int)
    requires ReduceBlock(p, h).height == p.height
    ensures ReduceBlock(p, h) == p.(committed := ReduceBlock(p, h).committed)
  {
    hide ClearVotes;
  }

  lemma StepStays(p: Page, f: Patch)
    requires Reduce(p, f).height == p.height && Reduce(p, f).round == p.round
    ensures p.step <= Reduce(p, f).step
  {
    hide ClearVotes, FillRows, MarkRows, FirstIndex;
  }

  /** Marking one proposer twice is marking it once, also with cells filled in between. */
  lemma MarksStay(p: Page, f: Patch, proposer: string)
    requires Reduce(p, f).height == p.height && Reduce(p, f).round == p.round
    requires proposer != "" && MarkRows(p.rows, proposer) == p.rows
    requires OneProposer(RoundChanged(p.height, p.round, 0, proposer), f)
    ensures MarkRows(Reduce(p, f).rows, proposer) == Reduce(p, f).rows
  {
    assert forall i :: 0 <= i < |p.rows| ==> p.rows[i].isProposer == (p.rows[i].address == proposer);
    if f.BlockCommitted? { BlockKeepsContext(p, f.height); }
  }

  lemma ReflectionLasts(p: Page, e: Patch, f: Patch)
    requires Reflected(p, e) && OneProposer(e, f)
    ensures Reflected(Reduce(p, f), e)
  {
    var q := Reduce(p, f);
    ReduceMovesAhead(p, f);
    hide ClearVotes, FillRows, MarkRows, FirstIndex, Reduce;
    match e
    case BlockCommitted(h) =>
    case RoundChanged(h, r, step, proposer) =>
      if Stale(p, h, r) {
        StaleStays(p, q, h, r);
      } else if q.height == p.height && q.round == p.round {
        StepStays(p, f);
        if proposer != "" { MarksStay(p, f, proposer); }
      }
    case VoteReceived(h, r, phase, addr, hash) =>
      KnownStays(p, f, addr);
      if Stale(p, h, r) {
        StaleStays(p, q, h, r);
      } else if Known(p.rows, addr) && q.height == p.height && q.round == p.round {
        if f.BlockCommitted? { BlockStays(p, f); }
        ContextKeeps(p, f, FirstIndex(p.rows, addr), phase);
      }
  }

  lemma BlockStays(p: Page, f: Patch)
    requires f.BlockCommitted? && Reduce(p, f).height == p.height
    ensures Reduce(p, f) == p.(committed := Reduce(p, f).committed)
  {
    BlockKeepsContext(p, f.height);
  }

  ghost predicate OneProposerEach(events: seq<Patch>)
  {
    forall i, j :: 0 <= i < |events| && 0 <= j < |events| ==> OneProposer(events[i], events[j])
  }

  /** No event names another proposer for the context of e. */
  ghost predicate Unrivalled(e: Patch, events: seq<Patch>)
  {
    forall j :: 0 <= j < |events| ==> OneProposer(e, events[j])
  }

  lemma {:induction false} FoldReflects(p: Page, events: seq<Patch>, i: nat)
    requires i < |events| && Unrivalled(events[i], events)
    ensures Reflected(Fold(p, events), events[i])
  {
    hide Reflected, OneProposer, Reduce;
    var front, last := events[..|events| - 1], events[|events| - 1];
    if i == |events| - 1 {
      FoldedIsReflected(Fold(p, front), last);
    } else {
      assert forall j :: 0 <= j < |front| ==> front[j] == events[j];
      FoldReflects(p, front, i);
      assert front[i] == events[i] && OneProposer(events[i], events[|events| - 1]);
      ReflectionLasts(Fold(p, front), events[i], last);
    }
  }

  lemma OthersAreUnrivalled(e: Patch, events: seq<Patch>)
    requires !e.RoundChanged?
    ensures Unrivalled(e, events)
  {
  }

  /** A replayed vote or block is absorbed, however many proposers were announced. */
  lemma VotesAndBlocksAreAbsorbed(p: Page, events: seq<Patch>, e: Patch)
    requires e in events && !e.RoundChanged?
    ensures Reflected(Fold(p, events), e) && Reduce(Fold(p, events), e) == Fold(p, events)
  {
    var i :| 0 <= i < |events| && events[i] == e;
    OthersAreUnrivalled(e, events);
    FoldReflects(p, events, i);
    ReflectedIsAbsorbed(Fold(p, events), e);
    hide Reflected, Reduce, Fold;
  }

  /** With one proposer per height and round, replaying any of the folded events changes nothing. */
  lemma {:induction false} ReplayIsAbsorbed(p: Page, events: seq<Patch>, again: seq<Patch>)
    requires OneProposerEach(events) && forall i :: 0 <= i < |again| ==> again[i] in events
    ensures Fold(Fold(p, events), again) == Fold(p, events)
    decreases |again|
  {
    if again != [] {
      var front, last := again[..|again| - 1], again[|again| - 1];
      ReplayIsAbsorbed(p, events, front);
      assert last in events;
      var i :| 0 <= i < |events| && events[i] == last;
      assert Unrivalled(last, events);
      FoldReflects(p, events, i);
      ReflectedIsAbsorbed(Fold(p, events), last);
      hide Reflected, Reduce, OneProposer;
    }
  }

  // ---------- exactly when one event is absorbed ----------

  /** The proposer last announced for a height and round, if any. */
  function LastProposer(events: seq<Patch>, h: int, r: int): string
  {
    if events == [] then "" else
      var last := events[|events| - 1];
      if last.RoundChanged? && last.height == h && last.round == r && last.proposer != "" then last.proposer
      else LastProposer(events[..|events| - 1], h, r)
  }

  lemma MarksMove(p: Page, f: Patch, h: int, r: int, proposer: string)
    requires proposer != "" && h == p.height && r == p.round && MarkRows(p.rows, proposer) == p.rows
    requires !(f.RoundChanged? && f.height == h && f.round == r && f.proposer != "")
    ensures Stale(Reduce(p, f), h, r)
      || (Reduce(p, f).height == h && Reduce(p, f).round == r
        && MarkRows(Reduce(p, f).rows, proposer) == Reduce(p, f).rows)
  {
    ReduceMovesAhead(p, f);
    if Reduce(p, f).height == h && Reduce(p, f).round == r { MarksStay(p, f, proposer); }
  }

  /** Unless its context is past, the last announced proposer is the one marked. */
  lemma {:induction false} LastProposerIsMarked(p: Page, events: seq<Patch>, h: int, r: int)
    requires LastProposer(events, h, r) != ""
    ensures var q := Fold(p, events);
      Stale(q, h, r) || (q.height == h && q.round == r && MarkRows(q.rows, LastProposer(events, h, r)) == q.rows)
  {
    var front, last := events[..|events| - 1], events[|events| - 1];
    var q := Fold(p, front);
    ReduceMovesAhead(q, last);
    if last.RoundChanged? && last.height == h && last.round == r && last.proposer != "" {
      FoldedIsReflected(q, last);
      hide MarkRows;
      if Stale(q, h, r) { StaleStays(q, Fold(p, events), h, r); }
    } else {
      LastProposerIsMarked(p, front, h, r);
      hide MarkRows, Reduce;
      if Stale(q, h, r) {
        StaleStays(q, Fold(p, events), h, r);
      } else {
        MarksMove(q, last, h, r, LastProposer(events, h, r));
      }
    }
  }

  /** A folded round is past, or its context is current and its step reached. */
  lemma {:induction false} FoldReachesRound(p: Page, events: seq<Patch>, i: nat)
    requires i < |events| && events[i].RoundChanged?
    ensures var q, e := Fold(p, events), events[i];
      Stale(q, e.height, e.round) || (q.height == e.height && q.round == e.round && e.step <= q.step)
  {
    var front, last := events[..|events| - 1], events[|events| - 1];
    var q := Fold(p, front);
    ReduceMovesAhead(q, last);
    if i == |events| - 1 {
      FoldedIsReflected(q, last);
    } else {
      FoldReachesRound(p, front, i);
      hide Reduce;
      var e := events[i];
      if Stale(q, e.height, e.round) {
        StaleStays(q, Fold(p, events), e.height, e.round);
      } else if Fold(p, events).height == q.height && Fold(p, events).round == q.round {
        StepStays(q, last);
      }
    }
  }

  ghost predicate SameMarks(rows: seq<Row>, a: string, b: string)
  {
    forall i :: 0 <= i < |rows| ==> (rows[i].address == a <==> rows[i].address == b)
  }

  /**
   Replaying a folded round is absorbed if and only if its context is past, or it names no proposer, or it
   marks the same rows as the proposer announced last for that context.
   */
  lemma RoundIsAbsorbedExactly(p: Page, events: seq<Patch>, e: Patch)
    requires e in events && e.RoundChanged?
    ensures var q := Fold(p, events);
      Reduce(q, e) == q <==>
        Stale(q, e.height, e.round) || e.proposer == ""
        || SameMarks(q.rows, e.proposer, LastProposer(events, e.height, e.round))
  {
    var q := Fold(p, events);
    var i :| 0 <= i < |events| && events[i] == e;
    FoldReachesRound(p, events, i);
    if !Stale(q, e.height, e.round) && e.proposer != "" {
      AnnouncedIsLast(events, i);
      var last := LastProposer(events, e.height, e.round);
      LastProposerIsMarked(p, events, e.height, e.round);
      assert forall k :: 0 <= k < |q.rows| ==> q.rows[k].isProposer == (q.rows[k].address == last);
      if SameMarks(q.rows, e.proposer, last) { assert MarkRows(q.rows, e.proposer) == q.rows; }
      if MarkRows(q.rows, e.proposer) == q.rows {
        assert forall k :: 0 <= k < |q.rows| ==> q.rows[k].isProposer == (q.rows[k].address == e.proposer);
      }
    }
  }

  lemma {:induction false} AnnouncedIsLast(events: seq<Patch>, i: nat)
    requires i < |events| && events[i].RoundChanged? && events[i].proposer != ""
    ensures LastProposer(events, events[i].height, events[i].round) != ""
  {
    if i < |events| - 1 { AnnouncedIsLast(events[..|events| - 1], i); }
  }

  // ---------- exactly when a whole replay is absorbed ----------

  /** The proposer a replay leaves marked on q: the last it names for q's context, unless that is past. */
  function LeftMarked(q: Page, again: seq<Patch>): string
  {
    if Stale(q, q.height, q.round) then "" else LastProposer(again, q.height, q.round)
  }

  function Marked(q: Page, proposer: string): Page
  {
    if proposer == "" then q else q.(rows := MarkRows(q.rows, proposer))
  }

  lemma MarkedTwice(q: Page, a: string, b: string)
    requires b != ""
    ensures Marked(Marked(q, a), b) == Marked(q, b)
  {
    assert MarkRows(MarkRows(q.rows, a), b) == MarkRows(q.rows, b);
  }

  lemma MarkingKeepsIndex(rows: seq<Row>, a: string, addr: string)
    ensures FirstIndex(MarkRows(rows, a), addr) == FirstIndex(rows, addr)
  {
    SameAddressesSameIndex(rows, MarkRows(rows, a), addr);
  }

  /** Marks decide nothing about votes and blocks. */
  lemma MarkedReflects(q: Page, a: string, e: Patch)
    requires Reflected(q, e) && !e.RoundChanged?
    ensures Reflected(Marked(q, a), e)
  {
    if e.VoteReceived? { MarkingKeepsIndex(q.rows, a, e.addr); }
  }

  /** A folded round of the current context, on a page whose marks may have moved. */
  lemma MarkedRound(q: Page, a: string, e: Patch)
    requires e.RoundChanged?
    requires Stale(q, e.height, e.round) || (q.height == e.height && q.round == e.round && e.step <= q.step)
    ensures Reduce(Marked(q, a), e) == if Stale(q, e.height, e.round) then Marked(q, a)
      else Marked(Marked(q, a), e.proposer)
  {
    hide MarkRows, ClearVotes;
  }

  lemma {:induction false} ReplayMovesMarks(p: Page, events: seq<Patch>, again: seq<Patch>)
    requires forall i :: 0 <= i < |again| ==> again[i] in events
    ensures var q := Fold(p, events); Fold(q, again) == Marked(q, LeftMarked(q, again))
    decreases |again|
  {
    if again != [] {
      var q, front, last := Fold(p, events), again[..|again| - 1], again[|again| - 1];
      ReplayMovesMarks(p, events, front);
      assert last in events;
      if last.RoundChanged? {
        var i :| 0 <= i < |events| && events[i] == last;
        FoldReachesRound(p, events, i);
        MarkedRound(q, LeftMarked(q, front), last);
        hide Reduce, MarkRows;
        if last.proposer != "" { MarkedTwice(q, LeftMarked(q, front), last.proposer); }
      } else {
        VotesAndBlocksAreAbsorbed(p, events, last);
        MarkedReflects(q, LeftMarked(q, front), last);
        ReflectedIsAbsorbed(Marked(q, LeftMarked(q, front)), last);
        hide Reduce, Reflected, MarkRows;
      }
    }
  }

  lemma {:induction false} LastIsNamed(events: seq<Patch>, h: int, r: int)
    requires LastProposer(events, h, r) != ""
    ensures exists i ::
      0 <= i < |events| && events[i].RoundChanged? && events[i].height == h && events[i].round == r
      && events[i].proposer == LastProposer(events, h, r)
  {
    var front, last := events[..|events| - 1], events[|events| - 1];
    if !(last.RoundChanged? && last.height == h && last.round == r && last.proposer != "") {
      LastIsNamed(front, h, r);
      var i :| 0 <= i < |front| && front[i].RoundChanged? && front[i].height == h && front[i].round == r
        && front[i].proposer == LastProposer(front, h, r);
      assert events[i] == front[i];
    }
  }

  /**
   Without any hypothesis on proposers: replaying folded events in any order, any number of times, leaves the page
   unchanged if and only if the last proposer the replay names for the page's own context, if it names one and that
   context is not past, marks the same rows as the one announced last before.
   */
  lemma ReplayIsAbsorbedExactly(p: Page, events: seq<Patch>, again: seq<Patch>)
    requires forall i :: 0 <= i < |again| ==> again[i] in events
    ensures var q := Fold(p, events);
      Fold(q, again) == q <==>
        LeftMarked(q, again) == ""
        || SameMarks(q.rows, LeftMarked(q, again), LastProposer(events, q.height, q.round))
  {
    var q := Fold(p, events);
    var a := LeftMarked(q, again);
    ReplayMovesMarks(p, events, again);
    if a != "" {
      LastIsNamed(again, q.height, q.round);
      var i :| 0 <= i < |again| && again[i].RoundChanged? && again[i].height == q.height && again[i].round == q.round
        && again[i].proposer == a;
      assert again[i] in events;
      var k :| 0 <= k < |events| && events[k] == again[i];
      FoldReachesRound(p, events, k);
      MarkedRound(q, "", again[i]);
      RoundIsAbsorbedExactly(p, events, again[i]);
    }
    hide Fold, Reduce, MarkRows, SameMarks;
  }

  /** Two proposers for the current context: replaying the first moves the flag back. */
  lemma SecondProposerIsNotAbsorbed()
    ensures var p := Page(0, 0, 0, 0, BlankRows(["A", "B"]));
      var events := [RoundChanged(1, 0, 1, "A"), RoundChanged(1, 0, 1, "B")];
      Fold(Fold(p, events), [events[0]]) != Fold(p, events)
  {
    var p := Page(0, 0, 0, 0, BlankRows(["A", "B"]));
    var events := [RoundChanged(1, 0, 1, "A"), RoundChanged(1, 0, 1, "B")];
    assert events[..1][..0] == [] && events[..1] == [events[0]];
    var once := Reduce(p, events[0]);
    assert Fold(p, events[..1]) == once by { assert Fold(p, []) == p; }
    var twice := Reduce(once, events[1]);
    assert Fold(p, events) == twice;
    assert [events[0]][..0] == [];
    assert Fold(twice, [events[0]]) == Reduce(twice, events[0]);
    assert |twice.rows| == 2 && twice.rows[0].address == "A" && !twice.rows[0].isProposer;
    assert Reduce(twice, events[0]).rows[0].isProposer;
  }

  // ---------- a snapshot, then older events ----------

  lemma {:induction false} RunPrefix(s: Server, run: seq<Input>, more: seq<Input>)
    ensures After(s, run + more) == After(After(s, run), more)
    ensures Published(s, run + more) == Published(s, run) + Published(After(s, run), more)
    decreases |more|
  {
    hide Handle;
    if more == [] {
      assert run + more == run && Published(s, run) + [] == Published(s, run);
    } else {
      var front := more[..|more| - 1];
      RunPrefix(s, run, front);
      assert (run + more)[..|run + more| - 1] == run + front;
      assert (run + more)[|run + more| - 1] == more[|more| - 1];
    }
  }

  lemma {:induction false} FoldSplits(p: Page, a: seq<Patch>, b: seq<Patch>)
    ensures Fold(p, a + b) == Fold(Fold(p, a), b)
    decreases |b|
  {
    hide Reduce;
    if b == [] {
      assert a + b == a;
    } else {
      FoldSplits(p, a, b[..|b| - 1]);
      assert (a + b)[..|a + b| - 1] == a + b[..|b| - 1];
    }
  }

  /**
   A browser that receives a snapshot, then any of the events published before it was taken, then all of
   those published after, shows the server's state.
   */
  lemma SnapshotThenStaleEvents(roster: seq<string>, run: seq<Input>, more: seq<Input>, stale: seq<Patch>)
    requires DistinctRoster(roster) && RecognisedRun(roster, run + more)
    requires OneProposerEach(Published(Seeded(roster), run))
    requires forall i :: 0 <= i < |stale| ==> stale[i] in Published(Seeded(roster), run)
    ensures var s := After(Seeded(roster), run);
      Fold(Fold(PageOf(s), stale), Published(s, more)) == PageOf(After(Seeded(roster), run + more))
  {
    hide Handle, Reduce, Recognised, OneProposer, DistinctRoster;
    var s0 := Seeded(roster);
    assert RecognisedRun(roster, run) by { assert forall i :: 0 <= i < |run| ==> run[i] == (run + more)[i]; }
    BrowserFollowsServer(roster, run);
    BrowserFollowsServer(roster, run + more);
    ReplayIsAbsorbed(PageOf(s0), Published(s0, run), stale);
    RunPrefix(s0, run, more);
    FoldSplits(PageOf(s0), Published(s0, run), Published(After(s0, run), more));
  }
}
