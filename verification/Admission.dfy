/**
 Which rounds the archive would still retain. Being admissible is not enough: a full archive evicts its least height
 and a full height its least round, and that may be the one just created.
 */
module Admission {
  import opened Common
  import opened TrackerTypes
  import opened Archive
  import opened Evidence
  import opened Tracker
  import opened TrackerRuns
  import opened Oracle
  import opened Coverage
  import opened Detector

  ghost predicate HeightFits(t: TrackerState, h: int)
  {
    |t.archive| < t.cfg.historySize || exists x :: x in t.archive && x < h
  }

  ghost predicate RoundFits(rounds: set<int>, r: int)
  {
    |rounds| < ROUND_LIMIT || exists x :: x in rounds && x < r
  }

  /** Round r of h is retained, or an observation of it now would be. */
  ghost predicate RoomFor(t: TrackerState, h: int, r: int)
  {
    t.Retained(h, r)
    || (Admissible(t, h, r) && if h in t.archive then RoundFits(t.archive[h].rounds.Keys, r) else HeightFits(t, h))
  }

  // ---------- an observation now ----------

  lemma InsertedStays(b: ArchivedHeight, r: int, roster: Roster, now: int)
    requires r !in b.rounds && |b.rounds| <= ROUND_LIMIT
    ensures var g := InsertRound(b, r, roster, now);
      r in (if |g.rounds| > ROUND_LIMIT then EvictOldestRound(g) else g).rounds <==> RoundFits(b.rounds.Keys, r)
  {
    var g := InsertRound(b, r, roster, now);
    assert g.rounds.Keys == b.rounds.Keys + {r};
    assert |g.rounds| == |g.rounds.Keys| && |b.rounds| == |b.rounds.Keys|;
    if |g.rounds| > ROUND_LIMIT { LeastIsNew(b.rounds.Keys, r, SetMin(g.rounds.Keys)); }
  }

  lemma LeastIsNew(s: set<int>, x: int, least: int)
    requires x !in s && least in s + {x} && forall y :: y in s + {x} ==> least <= y
    ensures least == x <==> !exists y :: y in s && y < x
  {
    if least != x { assert least in s && least < x; }
  }

  lemma RoundKept(t: TrackerState, h: int, r: int, now: int)
    requires ArchiveOk(t) && h in t.archive && Admissible(t, h, r)
    ensures EnsureRound(t, h, r, now).Retained(h, r) <==> RoundFits(t.archive[h].rounds.Keys, r)
  {
    BlockAt(t, h);
    EnsureRoundIsPruned(t, h, r, now);
    InsertedStays(t.archive[h], r, t.defaultValidators, now);
    hide ArchiveOk, EnsureRound, InsertRound, EvictOldestRound, RoundFits, RoundsOk, CountersOk;
  }

  lemma HeightKept(t: TrackerState, h: int, now: int)
    requires ArchiveOk(t) && h > 0 && h > t.archiveEvictedThrough && h > t.committedHeight && h !in t.archive
    ensures h in EnsureHeight(t, h, now).archive <==> HeightFits(t, h)
  {
    var g := InsertHeight(t, h, now);
    InsertedHeights(t, h, now);
    assert |t.archive| <= t.cfg.historySize && g.cfg == t.cfg;
    hide ArchiveOk, InsertHeight, EvictOldestHeight;
    if |g.archive| > t.cfg.historySize {
      EvictedArchive(g);
      LeastIsNew(t.archive.Keys, h, SetMin(g.archive.Keys));
      assert (exists y :: y in t.archive && y < h) <==> exists y :: y in t.archive.Keys && y < h;
    }
  }

  lemma FreshRoundFits(u: TrackerState, h: int, r: int, now: int)
    requires ArchiveOk(u) && h in u.archive && u.archive[h] == NewBlock(h, now) && h > u.committedHeight && r >= 0
    ensures Admissible(u, h, r) && RoundFits(u.archive[h].rounds.Keys, r)
  {
    BlockAt(u, h);
  }

  /** Observing a round retains it exactly when there is room for it. */
  lemma ObservedIffRoom(t: TrackerState, h: int, r: int, now: int)
    requires ArchiveOk(t) && r >= 0
    ensures Locate(t, h, r, now).Retained(h, r) <==> RoomFor(t, h, r)
  {
    if t.Retained(h, r) {
      LocateRetained(t, h, r, now);
    } else if !Admissible(t, h, r) {
      LocateDead(t, h, r, now);
    } else if h in t.archive {
      RoundKept(t, h, r, now);
      hide ArchiveOk, EnsureRound, RoundFits;
    } else {
      var u := EnsureHeight(t, h, now);
      EnsureHeightFacts(t, h, now);
      HeightKept(t, h, now);
      if h in u.archive {
        FreshRoundFits(u, h, r, now);
        RoundKept(u, h, r, now);
      }
      hide ArchiveOk, Ages, EnsureHeight, EnsureRound, RoundFits, HeightFits, OnlyPruned, CatalogueStep;
    }
  }

  // ---------- room that is gone stays gone ----------

  /** The archive is full of heights above h. */
  ghost predicate FullAbove(t: TrackerState, h: int)
  {
    h !in t.archive && |t.archive| == t.cfg.historySize && forall x :: x in t.archive ==> h < x
  }

  lemma SameKeysFull(t: TrackerState, u: TrackerState, h: int)
    requires FullAbove(t, h) && u.archive.Keys == t.archive.Keys && u.cfg == t.cfg
    ensures FullAbove(u, h)
  {
    assert |u.archive| == |u.archive.Keys| == |t.archive.Keys| == |t.archive|;
    assert forall x :: x in u.archive ==> x in t.archive.Keys;
  }

  /** One height more, and the least one gone: still full, still above h. */
  lemma ReplacedKeepsFull(before: set<int>, x: int, least: int, h: int)
    requires h !in before && (forall y :: y in before ==> h < y) && x !in before
    requires least in before + {x} && forall y :: y in before + {x} ==> least <= y
    ensures var after := before + {x} - {least};
      h !in after && |after| == |before| && forall y :: y in after ==> h < y
  {
    assert |before + {x}| == |before| + 1;
    if x <= h { assert least == x && before + {x} - {least} == before; }
  }

  lemma CreateKeepsFull(t: TrackerState, x: int, now: int, h: int)
    requires ArchiveOk(t) && FullAbove(t, h)
    ensures FullAbove(CreateHeight(t, x, now), h)
  {
    if !(x <= 0 || x <= t.archiveEvictedThrough || x in t.archive) {
      var g := InsertHeight(t, x, now);
      InsertedHeights(t, x, now);
      assert g.cfg == t.cfg && |g.archive| > t.cfg.historySize && CreateHeight(t, x, now) == EvictOldestHeight(g);
      EvictedArchive(g);
      assert EvictOldestHeight(g).cfg == t.cfg;
      hide ArchiveOk, InsertHeight, EvictOldestHeight, CreateHeight;
      ReplacedKeepsFull(t.archive.Keys, x, SetMin(g.archive.Keys), h);
      FullAboveKeys(EvictOldestHeight(g), h);
    }
  }

  lemma FullAboveKeys(t: TrackerState, h: int)
    requires h !in t.archive.Keys && |t.archive.Keys| == t.cfg.historySize && forall x :: x in t.archive.Keys ==> h < x
    ensures FullAbove(t, h)
  {
    assert |t.archive| == |t.archive.Keys|;
    assert forall x :: x in t.archive ==> x in t.archive.Keys;
  }

  lemma LocateKeepsFull(t: TrackerState, x: int, r: int, now: int, h: int)
    requires ArchiveOk(t) && FullAbove(t, h)
    ensures FullAbove(Locate(t, x, r, now), h)
  {
    var u := EnsureHeight(t, x, now);
    CreateKeepsFull(t, x, now, h);
    assert FullAbove(u, h);
    hide ArchiveOk, FullAbove, CreateHeight;
    if x in u.archive {
      EnsureKeepsKeys(u, x, r, now);
      SameKeysFull(u, EnsureRound(u, x, r, now), h);
    }
  }

  lemma EnsureKeepsKeys(u: TrackerState, h: int, r: int, now: int)
    requires h in u.archive
    ensures EnsureRound(u, h, r, now).archive.Keys == u.archive.Keys && EnsureRound(u, h, r, now).cfg == u.cfg
  {
  }

  lemma VoteKeepsFull(t: TrackerState, v: VoteEvent, now: int, h: int)
    requires ArchiveOk(t) && FullAbove(t, h)
    ensures FullAbove(ObserveVote(t, v, now), h)
  {
    hide ArchiveOk, FullAbove, Locate, RecordVote;
    if ValidVote(v) {
      var u := Locate(t, v.height, v.round, now);
      LocateKeepsFull(t, v.height, v.round, now, h);
      if u.Retained(v.height, v.round) {
        assert ObserveVote(t, v, now).archive.Keys == u.archive.Keys;
        SameKeysFull(u, ObserveVote(t, v, now), h);
      }
    }
  }

  lemma RoundKeepsFull(t: TrackerState, x: int, r: int, proposer: string, now: int, h: int)
    requires ArchiveOk(t) && FullAbove(t, h)
    ensures FullAbove(ObserveRound(t, x, r, proposer, now), h)
  {
    hide ArchiveOk, FullAbove, Locate, Propose;
    if !(x <= 0 || r < 0 || r > MAX_ROUND || |proposer| > IDENTITY_LIMIT) {
      var u := Locate(t, x, r, now);
      LocateKeepsFull(t, x, r, now, h);
      if u.Retained(x, r) {
        assert ObserveRound(t, x, r, proposer, now).archive.Keys == u.archive.Keys;
        SameKeysFull(u, ObserveRound(t, x, r, proposer, now), h);
      }
    }
  }

  lemma CommitKeepsFull(t: TrackerState, x: int, hash: string, now: int, h: int)
    requires ArchiveOk(t) && FullAbove(t, h)
    ensures FullAbove(ArchiveCommit(t, x, hash, now), h)
  {
    hide ArchiveOk, FullAbove, CreateHeight, CommitBlock;
    if |hash| <= IDENTITY_LIMIT {
      var u := CreateHeight(t, x, now);
      CreateKeepsFull(t, x, now, h);
      if x in u.archive {
        assert ArchiveCommit(t, x, hash, now).archive.Keys == u.archive.Keys;
        SameKeysFull(u, ArchiveCommit(t, x, hash, now), h);
      }
    }
  }

  lemma IngestKeepsKeys(t: TrackerState, v: VoteEvent, now: int)
    ensures IngestVote(t, v, now).tracker.archive == ObserveVote(t, v, now).archive
    ensures IngestVote(t, v, now).tracker.cfg == ObserveVote(t, v, now).cfg
  {
    hide ObserveVote, ReportOf, Fires, AddVote, HasVote;
  }

  lemma StepKeepsFull(t: TrackerState, e: Timed, h: int)
    requires ArchiveOk(t) && FullAbove(t, h)
    ensures FullAbove(Step(t, e), h)
  {
    hide ArchiveOk, FullAbove, ObserveRound, ObserveVote, IngestVote, ResolveCommit, Backfill, Reweigh, RosterOf,
      TotalOf;
    match e.op
    case OpSetValidators(vs) =>
      assert SetValidators(t, vs).archive.Keys == t.archive.Keys;
      SameKeysFull(t, Step(t, e), h);
    case OpObserveRound(x, r, proposer) => RoundKeepsFull(t, x, r, proposer, e.now, h);
    case OpObserveVote(v) => VoteKeepsFull(t, v, e.now, h);
    case OpIngestVote(v) =>
      VoteKeepsFull(t, v, e.now, h);
      IngestKeepsKeys(t, v, e.now);
      SameKeysFull(ObserveVote(t, v, e.now), Step(t, e), h);
    case OpMarkRoundAdvanced(x, r) => SameKeysFull(t, Step(t, e), h);
    case OpResolveCommit(x, hash) =>
      CommitKeepsFull(t, x, hash, e.now, h);
      ResolveKeepsArchive(t, x, hash, e.now);
      SameKeysFull(ArchiveCommit(t, x, hash, e.now), Step(t, e), h);
  }

  /** The height is full of rounds above r. */
  ghost predicate RoundsFull(rounds: set<int>, r: int)
  {
    r !in rounds && |rounds| == ROUND_LIMIT && forall x :: x in rounds ==> r < x
  }

  lemma AdmitKeepsFull(c: Tally, x: int, r: int)
    requires RoundsFull(c.rounds, r) && x !in c.rounds
    ensures RoundsFull(Admit(c, x).rounds, r)
  {
    var rounds := c.rounds + {x};
    assert |rounds| == |c.rounds| + 1;
    var oldest := SetMin(rounds);
    assert |rounds - {oldest}| == |rounds| - 1;
    if x <= r {
      assert oldest == x;
      assert rounds - {oldest} == c.rounds;
    }
  }

  lemma StepKeepsRoundsFull(t: TrackerState, e: Timed, h: int, r: int)
    requires ArchiveOk(t) && h in t.archive && h in Step(t, e).archive && RoundsFull(t.archive[h].rounds.Keys, r)
    ensures RoundsFull(Step(t, e).archive[h].rounds.Keys, r)
  {
    hide ArchiveOk, Step, RoundsFull, Admit;
    StepCounts(t, e, h);
    var x := OfferedRound(e.op, h);
    if x.Some? && Admissible(t, h, x.value) { AdmitKeepsFull(CountAt(t, h), x.value, r); }
  }

  lemma NoFitIsFull(rounds: set<int>, r: int)
    requires r !in rounds && |rounds| <= ROUND_LIMIT
    ensures !RoundFits(rounds, r) <==> RoundsFull(rounds, r)
  {
  }

  lemma NoHeightIsFull(t: TrackerState, h: int)
    requires h !in t.archive && |t.archive| <= t.cfg.historySize
    ensures !HeightFits(t, h) <==> FullAbove(t, h)
  {
  }

  lemma SizesOk(t: TrackerState, h: int)
    requires ArchiveOk(t)
    ensures |t.archive| <= t.cfg.historySize
    ensures h in t.archive ==> |t.archive[h].rounds.Keys| <= ROUND_LIMIT
  {
    if h in t.archive {
      BlockAt(t, h);
      assert |t.archive[h].rounds.Keys| == |t.archive[h].rounds|;
    }
  }

  /** What has no room is dead, or behind a full archive or a full height. */
  lemma NoRoomMeans(t: TrackerState, h: int, r: int)
    requires ArchiveOk(t)
    ensures !RoomFor(t, h, r) <==>
      Dead(t, h, r) || FullAbove(t, h)
        || (h in t.archive && !t.Retained(h, r) && RoundsFull(t.archive[h].rounds.Keys, r))
  {
    assert FullAbove(t, h) ==> h !in t.archive;
    SizesOk(t, h);
    hide ArchiveOk, RoundFits, RoundsFull, HeightFits, FullAbove, Admissible;
    if h in t.archive {
      if r !in t.archive[h].rounds { NoFitIsFull(t.archive[h].rounds.Keys, r); }
    } else {
      NoHeightIsFull(t, h);
    }
  }

  lemma StepKeepsNoRoom(t: TrackerState, e: Timed, h: int, r: int)
    requires ArchiveOk(t) && !RoomFor(t, h, r)
    ensures !RoomFor(Step(t, e), h, r)
  {
    var u := Step(t, e);
    StepEvolves(t, e);
    EvolvesOk(t, u);
    NoRoomMeans(t, h, r);
    NoRoomMeans(u, h, r);
    hide ArchiveOk, Step, Evolves, RoomFor, Admissible;
    if Dead(t, h, r) {
      DeadStaysDead(t, u, h, r);
    } else if FullAbove(t, h) {
      StepKeepsFull(t, e, h);
    } else if h in u.archive {
      StepKeepsRoundsFull(t, e, h, r);
    } else {
      LostHeightIsDead(t, u, h, r);
    }
  }

  lemma LostHeightIsDead(t: TrackerState, u: TrackerState, h: int, r: int)
    requires Ages(t, u) && h in t.archive && h !in u.archive
    ensures Dead(u, h, r)
  {
  }

  /** Whatever follows, a round without room is not retained again. */
  lemma {:induction false} RunKeepsNoRoom(t: TrackerState, run: seq<Timed>, h: int, r: int)
    requires ArchiveOk(t) && !RoomFor(t, h, r)
    ensures !RoomFor(After(t, run), h, r)
  {
    hide ArchiveOk, RoomFor, Step, Later;
    if run != [] {
      RunKeepsNoRoom(t, run[..|run| - 1], h, r);
      RunIsLater(t, run[..|run| - 1]);
      LaterOk(t, After(t, run[..|run| - 1]));
      StepKeepsNoRoom(After(t, run[..|run| - 1]), run[|run| - 1], h, r);
    }
  }

  ghost predicate RetainedAfter(cfg: Config, run: seq<Timed>, more: seq<Timed>, h: int, r: int)
  {
    Run(cfg, run + more).Retained(h, r)
  }

  lemma ObservedIsRetained(cfg: Config, run: seq<Timed>, h: int, r: int)
    requires RoomFor(Run(cfg, run), h, r) && h > 0 && 0 <= r <= MAX_ROUND
    ensures RetainedAfter(cfg, run, [Timed(OpObserveRound(h, r, ""), 0)], h, r)
  {
    var t, e := Run(cfg, run), Timed(OpObserveRound(h, r, ""), 0);
    RunOk(cfg, run);
    ObservedIffRoom(t, h, r, 0);
    assert (run + [e])[..|run|] == run;
    assert Run(cfg, run + [e]) == Step(t, e) by { hide Step; }
    assert Step(t, e).Retained(h, r) by { hide Locate, RoomFor, Run, ArchiveOk; }
    hide Run, Step, RoomFor;
  }

  lemma RoomIsAboveZero(t: TrackerState, h: int, r: int)
    requires ArchiveOk(t) && RoomFor(t, h, r)
    ensures h > 0
  {
    if h in t.archive { BlockAt(t, h); }
  }

  /** A round is retained at the end of some continuation of the run if and only if there is room for it now. */
  lemma RoomExactly(cfg: Config, run: seq<Timed>, h: int, r: int)
    requires 0 <= r <= MAX_ROUND
    ensures RoomFor(Run(cfg, run), h, r) <==> exists more :: RetainedAfter(cfg, run, more, h, r)
  {
    var t := Run(cfg, run);
    RunOk(cfg, run);
    if RoomFor(t, h, r) {
      RoomIsAboveZero(t, h, r);
      ObservedIsRetained(cfg, run, h, r);
    } else {
      forall more ensures !RetainedAfter(cfg, run, more, h, r) {
        AfterAppend(NewTracker(cfg), run, more);
        RunKeepsNoRoom(t, more, h, r);
        NoRoomIsNotRetained(After(t, more), h, r);
        hide After, RoomFor, ArchiveOk;
      }
    }
  }

  lemma NoRoomIsNotRetained(t: TrackerState, h: int, r: int)
    requires !RoomFor(t, h, r)
    ensures !t.Retained(h, r)
  {
    hide HeightFits, RoundFits;
  }

  // ---------- a vote that finds room ----------

  /** The evidence of the vote's round before it. */
  function EvidenceBefore(t: TrackerState, v: VoteEvent, now: int): ArchivedRound
  {
    if t.Retained(v.height, v.round) then t.archive[v.height].rounds[v.round]
    else NewRound(v.round, t.defaultValidators, now)
  }

  lemma LocatedEvidence(t: TrackerState, v: VoteEvent, now: int)
    requires ArchiveOk(t) && RoomFor(t, v.height, v.round) && v.round >= 0
    ensures var u := Locate(t, v.height, v.round, now);
      u.Retained(v.height, v.round) && u.archive[v.height].rounds[v.round] == EvidenceBefore(t, v, now)
  {
    ObservedIffRoom(t, v.height, v.round, now);
    LocateIsQuiet(t, v.height, v.round, now);
    hide ArchiveOk, Ages, Locate, RoomFor, OnlyPruned, CatalogueStep, QuietBlocks, Dead;
  }

  lemma VoteFindsRoom(t: TrackerState, v: VoteEvent, now: int)
    requires ArchiveOk(t) && ValidVote(v) && RoomFor(t, v.height, v.round)
    ensures var u := ObserveVote(t, v, now);
      && ArchiveOk(u) && OnlyPruned(t, u) && u.cfg == t.cfg && u.Retained(v.height, v.round)
      && u.archive[v.height].rounds[v.round] == RecordInRound(EvidenceBefore(t, v, now), v, now)
  {
    LocatedEvidence(t, v, now);
    ObserveVoteEvolves(t, v, now);
    EvolvesOk(t, ObserveVote(t, v, now));
    ObserveVotePrunes(t, v, now);
    hide ArchiveOk, Ages, Locate, RoomFor, OnlyPruned, RecordInRound, EvidenceBefore, Evolves;
  }

  lemma RecordedVote(rd: ArchivedRound, v: VoteEvent, now: int)
    requires v.kind != OtherType && !Capped(rd, v)
    ensures var rd2 := RecordInRound(rd, v, now);
      && rd2.Vote(v.addr, v.kind).Some? && rd2.votes.Keys == rd.votes.Keys + {v.addr} && rd2.roster == rd.roster
      && rd2.UnknownVoters() <= rd.UnknownVoters() + {v.addr}
  {
    var vote := Present(rd, v);
    var rd2 := RecordInRound(rd, v, now);
    if v.hash in vote.Hashes() {
      assert rd.Vote(v.addr, v.kind).Some?;
    } else if |vote.hashes| >= HASH_LIMIT {
      WriteVote(rd, v, vote.(truncated := true, conflicting := true), rd2);
    } else {
      WriteVote(rd, v, Appended(vote, v, now), rd2);
    }
    assert rd2.votes.Keys == rd.votes.Keys + {v.addr};
  }

  // ---------- limits ----------

  /** Votes and rounds the archive takes: positive heights, rounds of 32 bits, identities of at most 128 characters. */
  predicate TakesVote(v: VoteEvent)
  {
    && v.height > 0 && 0 <= v.round <= 0x7fff_ffff && v.addr != "" && |v.addr| <= 128 && |v.hash| <= 128
    && v.kind in {Prevote, Precommit}
  }

  lemma TakesValid(v: VoteEvent)
    ensures TakesVote(v) <==> ValidVote(v)
  {
  }

  lemma RecordedIsRetained(t: TrackerState, v: VoteEvent, now: int)
    requires ArchiveOk(t) && ValidVote(v)
    ensures ObserveVote(t, v, now).Retained(v.height, v.round)
      <==> Locate(t, v.height, v.round, now).Retained(v.height, v.round)
  {
    var u := Locate(t, v.height, v.round, now);
    if u.Retained(v.height, v.round) { RecordKeepsRounds(u.archive[v.height], v, now); }
    hide Locate, RecordVote, ArchiveOk;
  }

  /** Where there is room for its round, a vote has it retained exactly when it is one the archive takes. */
  lemma VoteIsTakenExactly(t: TrackerState, v: VoteEvent, now: int)
    requires ArchiveOk(t) && !t.Retained(v.height, v.round) && RoomFor(t, v.height, v.round)
    ensures ObserveVote(t, v, now).Retained(v.height, v.round) <==> TakesVote(v)
  {
    TakesValid(v);
    hide ArchiveOk, RoomFor, Locate, RecordVote, TakesVote;
    if ValidVote(v) {
      RecordedIsRetained(t, v, now);
      ObservedIffRoom(t, v.height, v.round, now);
    }
  }

  /** Likewise an announced round, whose proposer's name may have 128 characters. */
  lemma RoundIsTakenExactly(t: TrackerState, h: int, r: int, proposer: string, now: int)
    requires ArchiveOk(t) && !t.Retained(h, r) && RoomFor(t, h, r)
    ensures ObserveRound(t, h, r, proposer, now).Retained(h, r)
      <==> h > 0 && 0 <= r <= 0x7fff_ffff && |proposer| <= 128
  {
    var u := Locate(t, h, r, now);
    if u.Retained(h, r) { ProposeKeepsRounds(u.archive[h], r, proposer, now); }
    hide ArchiveOk, RoomFor, Locate, Propose;
    if r >= 0 { ObservedIffRoom(t, h, r, now); }
  }

  /**
   A vote's hash is missing from its round afterwards exactly when it was missing before and its validator is a stranger
   to a round that has 64 of them already, or has four hashes in this phase already.
   */
  lemma LeftOutExactly(rd: ArchivedRound, v: VoteEvent, now: int)
    requires v.kind != OtherType
    ensures v.hash !in RecordInRound(rd, v, now).Held(v.addr, v.kind) <==>
      && v.hash !in rd.Held(v.addr, v.kind)
      && ((v.addr !in rd.votes && v.addr !in rd.roster && |rd.UnknownVoters()| >= 64) || |Present(rd, v).hashes| >= 4)
  {
    RecordedInRound(rd, v, now);
    HeldIsPresent(rd, v);
    if Appends(rd, v) {
      WriteHeld(rd, v, Appended(Present(rd, v), v, now), RecordInRound(rd, v, now));
      AppendHash(Present(rd, v), v, now);
    } else if !Capped(rd, v) && v.hash !in Present(rd, v).Hashes() {
      WriteHeld(rd, v, Present(rd, v).(truncated := true, conflicting := true), RecordInRound(rd, v, now));
    }
  }

  /** A height keeps up to 128 rounds: the next one sends the least of them away, which may be itself. */
  lemma RoundLimitExactly(t: TrackerState, h: int, r: int, now: int)
    requires ArchiveOk(t) && h in t.archive && Admissible(t, h, r)
    ensures var before, after := t.archive[h].rounds.Keys, EnsureRound(t, h, r, now).archive;
      && h in after
      && (|before| < 128
        ==> after[h].rounds.Keys == before + {r} && after[h].roundsEvicted == t.archive[h].roundsEvicted)
      && (|before| >= 128 ==>
            && IsLeastOf(after[h].evictedThrough, before + {r})
            && after[h].rounds.Keys == before + {r} - {after[h].evictedThrough}
            && after[h].roundsEvicted == t.archive[h].roundsEvicted + 1)
  {
    var b := t.archive[h];
    var g := InsertRound(b, r, t.defaultValidators, now);
    BlockAt(t, h);
    EnsureRoundIsPruned(t, h, r, now);
    assert g.rounds.Keys == b.rounds.Keys + {r};
    assert |g.rounds| == |g.rounds.Keys| == |b.rounds.Keys| + 1;
    EvictedRounds(g);
    hide ArchiveOk, EnsureRound, InsertRound, EvictOldestRound;
  }

  ghost predicate IsLeastOf(m: int, s: set<int>) { m in s && forall x :: x in s ==> m <= x }

  lemma EvictedRounds(g: ArchivedHeight)
    requires g.rounds.Keys != {}
    ensures var c := EvictOldestRound(g);
      && IsLeastOf(c.evictedThrough, g.rounds.Keys) && c.rounds.Keys == g.rounds.Keys - {c.evictedThrough}
      && c.roundsEvicted == g.roundsEvicted + 1
  {
  }

  // ---------- retained rounds are in range ----------

  lemma {:induction false} AdmittedInRange(cfg: Config, run: seq<Timed>, h: int, r: int)
    requires r in Admitted(cfg, run, h)
    ensures 0 <= r <= MAX_ROUND
  {
    hide Run, Admissible;
    if r in Admitted(cfg, run[..|run| - 1], h) { AdmittedInRange(cfg, run[..|run| - 1], h, r); }
  }

  lemma RetainedInRange(cfg: Config, run: seq<Timed>, h: int, r: int)
    requires Run(cfg, run).Retained(h, r)
    ensures 0 <= r <= MAX_ROUND
  {
    CoverageCountsAdmitted(cfg, run, h);
    hide Run, Admitted, MissingRounds;
    assert r in Run(cfg, run).archive[h].rounds.Keys;
    AdmittedInRange(cfg, run, h, r);
  }
}
