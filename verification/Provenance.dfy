/**
 Where the archive's records come from: the roster, the clock readings and the signing times a retained round shows are
 those of the calls that brought them.
 */
module Provenance {
  import opened Common
  import opened TrackerTypes
  import opened Archive
  import opened Evidence
  import opened Detector
  import opened Tracker
  import opened TrackerRuns
  import opened Oracle
  import Conservation
  import Truncation

  // ---------- one step ----------

  /** What a round lists for one validator and phase. */
  function Listed(rd: ArchivedRound, a: string, k: VoteType): seq<HashSeen>
  {
    if rd.Vote(a, k).Some? then rd.Vote(a, k).value.hashes else []
  }

  ghost predicate SameListing(rd: ArchivedRound, rd2: ArchivedRound)
  {
    rd2.proposer == rd.proposer && forall a, k :: Listed(rd2, a, k) == Listed(rd, a, k)
  }

  /** The round before a step, or the blank one that the step would start: seen now, with the default roster. */
  function Before(t: TrackerState, h: int, r: int, now: int): ArchivedRound
  {
    if t.Retained(h, r) then t.archive[h].rounds[r]
    else ArchivedRound(r, "", now, now, t.defaultValidators, map[], false)
  }

  /**
   rd2 is round r of h after the step e from rd. An empty roster takes the one of a SetValidators,
     no other roster changes;
   a listing grows by the hash of the observed vote at its end, with the clock of the call and the vote's signing time;
   the round was last seen now if its listings or its proposer changed, and not otherwise.
   */
  ghost predicate Follows(rd: ArchivedRound, rd2: ArchivedRound, e: Timed, h: int, r: int)
  {
    && rd2.firstSeen == rd.firstSeen
    && rd2.roster == (if |rd.roster| == 0 && e.op.OpSetValidators? then RosterOf(e.op.vs) else rd.roster)
    && (forall a, k :: Listed(rd2, a, k) == Listed(rd, a, k) || Extends(rd, rd2, e, h, r, a, k))
    && rd2.lastSeen == (if SameListing(rd, rd2) then rd.lastSeen else e.now)
  }

  ghost predicate Extends(rd: ArchivedRound, rd2: ArchivedRound, e: Timed, h: int, r: int, a: string, k: VoteType)
  {
    && IsVoteFor(e.op, h, r, a, k) && e.op.v.hash !in rd.Held(a, k)
    && Listed(rd2, a, k) == Listed(rd, a, k) + [HashSeen(e.op.v.hash, e.now, e.op.v.signedAt)]
  }

  ghost predicate RoundStep(t: TrackerState, u: TrackerState, e: Timed, h: int, r: int)
  {
    u.Retained(h, r) ==> Follows(Before(t, h, r, e.now), u.archive[h].rounds[r], e, h, r)
  }

  /** The rounds of u are those of t, or new ones that nothing was recorded in. */
  ghost predicate AsBefore(t: TrackerState, u: TrackerState, now: int)
  {
    forall h, r :: u.Retained(h, r) ==> u.archive[h].rounds[r] == Before(t, h, r, now)
  }

  lemma NothingFollows(rd: ArchivedRound, e: Timed, h: int, r: int)
    requires !e.op.OpSetValidators?
    ensures Follows(rd, rd, e, h, r)
  {
  }

  lemma BeforeSteps(t: TrackerState, u: TrackerState, e: Timed, h: int, r: int)
    requires AsBefore(t, u, e.now) && !e.op.OpSetValidators?
    ensures RoundStep(t, u, e, h, r)
  {
    hide Follows, Before;
    if u.Retained(h, r) { NothingFollows(u.archive[h].rounds[r], e, h, r); }
  }

  lemma LocateAsBefore(t: TrackerState, h: int, r: int, now: int)
    requires ArchiveOk(t)
    ensures AsBefore(t, Locate(t, h, r, now), now)
  {
    LocateIsQuiet(t, h, r, now);
    hide Locate, ArchiveOk, Ages, CatalogueStep, QuietBlocks, OnlyPruned;
  }

  lemma SameArchiveAsBefore(t: TrackerState, u: TrackerState, now: int)
    requires u.archive == t.archive
    ensures AsBefore(t, u, now)
  {
  }

  // ---------- votes ----------

  lemma PresentIsListed(rd: ArchivedRound, v: VoteEvent)
    ensures Present(rd, v).hashes == Listed(rd, v.addr, v.kind)
    ensures Present(rd, v).Hashes() == rd.Held(v.addr, v.kind)
  {
  }

  lemma WrittenListing(rd: ArchivedRound, v: VoteEvent, vote: PhaseVote, rd2: ArchivedRound)
    requires v.kind != OtherType && rd2.votes == WriteBallot(rd, v, vote)
    ensures Listed(rd2, v.addr, v.kind) == vote.hashes
    ensures forall a, k :: (a != v.addr || k != v.kind) ==> Listed(rd2, a, k) == Listed(rd, a, k)
  {
    WriteVote(rd, v, vote, rd2);
  }

  lemma RecordFollows(rd: ArchivedRound, e: Timed)
    requires IsVote(e.op)
    ensures Follows(rd, RecordInRound(rd, e.op.v, e.now), e, e.op.v.height, e.op.v.round)
  {
    var v := e.op.v;
    var rd2 := RecordInRound(rd, v, e.now);
    PresentIsListed(rd, v);
    hide Capped, WriteBallot, Listed;
    if Capped(rd, v) || v.hash in Present(rd, v).Hashes() {
      SameVotesListing(rd, rd2);
    } else if |Present(rd, v).hashes| >= HASH_LIMIT {
      WrittenListing(rd, v, Present(rd, v).(truncated := true, conflicting := true), rd2);
    } else {
      WrittenListing(rd, v, Appended(Present(rd, v), v, e.now), rd2);
      assert Listed(rd2, v.addr, v.kind) != Listed(rd, v.addr, v.kind);
    }
  }

  lemma SameVotesListing(rd: ArchivedRound, rd2: ArchivedRound)
    requires rd2.votes == rd.votes
    ensures forall a, k :: Listed(rd2, a, k) == Listed(rd, a, k)
  {
  }

  lemma RecordedSteps(t: TrackerState, u: TrackerState, e: Timed, h: int, r: int)
    requires AsBefore(t, u, e.now) && IsVote(e.op) && u.Retained(e.op.v.height, e.op.v.round)
    ensures RoundStep(t,
      u.(archive := u.archive[e.op.v.height := RecordVote(u.archive[e.op.v.height], e.op.v, e.now)]), e, h, r)
  {
    var v := e.op.v;
    var b := u.archive[v.height];
    RecordFollows(b.rounds[v.round], e);
    BeforeSteps(t, u, e, h, r);
    var c := RecordVote(b, v, e.now);
    assert c.rounds == b.rounds[v.round := RecordInRound(b.rounds[v.round], v, e.now)];
    hide RecordVote, RecordInRound, Follows, Before;
  }

  lemma VoteSteps(t: TrackerState, e: Timed, h: int, r: int)
    requires ArchiveOk(t) && (e.op.OpObserveVote? || e.op.OpIngestVote?)
    ensures RoundStep(t, ObserveVote(t, e.op.v, e.now), e, h, r)
  {
    var v := e.op.v;
    SameArchiveAsBefore(t, t, e.now);
    hide ArchiveOk, AsBefore, Locate, RecordVote, RoundStep;
    if ValidVote(v) {
      var u := Locate(t, v.height, v.round, e.now);
      LocateAsBefore(t, v.height, v.round, e.now);
      if u.Retained(v.height, v.round) { RecordedSteps(t, u, e, h, r); } else { BeforeSteps(t, u, e, h, r); }
    } else {
      BeforeSteps(t, t, e, h, r);
    }
  }

  // ---------- the other steps ----------

  lemma ProposedSteps(t: TrackerState, u: TrackerState, e: Timed, h: int, r: int)
    requires AsBefore(t, u, e.now) && e.op.OpObserveRound? && u.Retained(e.op.height, e.op.round)
    ensures RoundStep(t,
      u.(archive := u.archive[e.op.height := Propose(u.archive[e.op.height], e.op.round, e.op.proposer,
      e.now)]), e, h, r)
  {
    var b := u.archive[e.op.height];
    var c := Propose(b, e.op.round, e.op.proposer, e.now);
    BeforeSteps(t, u, e, h, r);
    var rd := b.rounds[e.op.round];
    var rd2 := rd.(proposer := e.op.proposer, lastSeen := e.now);
    SameVotesListing(rd, rd2);
    NothingFollows(rd, e, e.op.height, e.op.round);
    assert e.op.proposer != "" && rd.proposer != e.op.proposer ==> Follows(rd, rd2, e, e.op.height, e.op.round);
    assert c.rounds == b.rounds
      || (c.rounds == b.rounds[e.op.round := rd2] && e.op.proposer != "" && rd.proposer != e.op.proposer);
    hide Propose, Follows, Before;
  }

  lemma RoundSteps(t: TrackerState, e: Timed, h: int, r: int)
    requires ArchiveOk(t) && e.op.OpObserveRound?
    ensures RoundStep(t, ObserveRound(t, e.op.height, e.op.round, e.op.proposer, e.now), e, h, r)
  {
    SameArchiveAsBefore(t, t, e.now);
    hide ArchiveOk, AsBefore, Locate, Propose, RoundStep;
    var u := Locate(t, e.op.height, e.op.round, e.now);
    LocateAsBefore(t, e.op.height, e.op.round, e.now);
    BeforeSteps(t, u, e, h, r);
    BeforeSteps(t, t, e, h, r);
    if u.Retained(e.op.height, e.op.round) { ProposedSteps(t, u, e, h, r); }
  }

  lemma CommitSteps(t: TrackerState, e: Timed, h: int, r: int)
    requires ArchiveOk(t) && e.op.OpResolveCommit?
    ensures RoundStep(t, ResolveCommit(t, e.op.height, e.op.hash, e.now), e, h, r)
  {
    var u := ArchiveCommit(t, e.op.height, e.op.hash, e.now);
    ResolveKeepsArchive(t, e.op.height, e.op.hash, e.now);
    CommitAsBefore(t, e.op.height, e.op.hash, e.now);
    hide ArchiveOk, ArchiveCommit, ResolveCommit, RoundStep, Before;
    assert AsBefore(t, ResolveCommit(t, e.op.height, e.op.hash, e.now), e.now);
    BeforeSteps(t, ResolveCommit(t, e.op.height, e.op.hash, e.now), e, h, r);
  }

  lemma CreatedAsBefore(t: TrackerState, u: TrackerState, h: int, now: int)
    requires SameBlocksBut(t, u, h, now)
    ensures AsBefore(t, u, now)
  {
  }

  lemma SameRoundsAsBefore(t: TrackerState, u: TrackerState, w: TrackerState, now: int)
    requires AsBefore(t, u, now) && w.archive.Keys == u.archive.Keys
    requires forall h :: h in u.archive ==> w.archive[h].rounds == u.archive[h].rounds
    ensures AsBefore(t, w, now)
  {
    hide Before;
  }

  lemma CommitAsBefore(t: TrackerState, h: int, hash: string, now: int)
    requires ArchiveOk(t)
    ensures AsBefore(t, ArchiveCommit(t, h, hash, now), now)
  {
    var u := CreateHeight(t, h, now);
    CreateHeightFacts(t, h, now);
    SameArchiveAsBefore(t, t, now);
    CreatedAsBefore(t, u, h, now);
    hide ArchiveOk, CreateHeight, AsBefore, HeightFacts;
    if |hash| <= IDENTITY_LIMIT && h in u.archive {
      var w := ArchiveCommit(t, h, hash, now);
      assert w.archive == u.archive[h := CommitBlock(u.archive[h], hash, now)];
      SameRoundsAsBefore(t, u, w, now);
    }
  }

  lemma SeedSteps(t: TrackerState, e: Timed, h: int, r: int)
    requires e.op.OpSetValidators?
    ensures RoundStep(t, SetValidators(t, e.op.vs), e, h, r)
  {
    hide RosterOf, TotalOf, Reweigh;
  }

  /** Every step takes each retained round from what it was, or from a blank one, by the rule above. */
  lemma StepFollows(t: TrackerState, e: Timed, h: int, r: int)
    requires ArchiveOk(t)
    ensures RoundStep(t, Step(t, e), e, h, r)
  {
    SameArchiveAsBefore(t, t, e.now);
    hide ArchiveOk, RoundStep, AsBefore, SetValidators, ObserveRound, ObserveVote, IngestVote, MarkRoundAdvanced,
      ResolveCommit;
    match e.op
    case OpSetValidators(vs) => SeedSteps(t, e, h, r);
    case OpObserveRound(x, y, proposer) => RoundSteps(t, e, h, r);
    case OpObserveVote(v) => VoteSteps(t, e, h, r);
    case OpIngestVote(v) =>
      VoteSteps(t, e, h, r);
      Conservation.IngestKeepsArchive(t, v, e.now);
      SameArchiveSteps(t, ObserveVote(t, v, e.now), Step(t, e), e, h, r);
    case OpMarkRoundAdvanced(x, y) =>
      assert MarkRoundAdvanced(t, x, y).archive == t.archive by { Truncation.MarkKeepsArchive(t, x, y); }
      SameArchiveAsBefore(t, Step(t, e), e.now);
      BeforeSteps(t, Step(t, e), e, h, r);
    case OpResolveCommit(x, hash) => CommitSteps(t, e, h, r);
  }

  lemma SameArchiveSteps(t: TrackerState, u: TrackerState, w: TrackerState, e: Timed, h: int, r: int)
    requires RoundStep(t, u, e, h, r) && w.archive == u.archive
    ensures RoundStep(t, w, e, h, r)
  {
    hide Follows, Before;
  }

  // ---------- blocks ----------

  /** Nothing a block reports has changed but rosters and marks of evidence left out. */
  ghost predicate SameReported(b: ArchivedHeight, c: ArchivedHeight)
  {
    && c.committed == b.committed && c.canonicalHash == b.canonicalHash && c.roundsObserved == b.roundsObserved
    && forall r :: r in b.rounds && r in c.rounds ==> SameListing(b.rounds[r], c.rounds[r])
  }

  /** A block is first seen when it is created, and last seen when something of what it reports changed. */
  ghost predicate BlockStep(t: TrackerState, u: TrackerState, e: Timed, h: int)
  {
    h in u.archive ==>
      && u.archive[h].firstSeen == (if h in t.archive then t.archive[h].firstSeen else e.now)
      && u.archive[h].lastSeen
        == (if h in t.archive && SameReported(t.archive[h], u.archive[h]) then t.archive[h].lastSeen else e.now)
  }

  /** c is b after a step at now that starts no round. */
  ghost predicate Touches(b: ArchivedHeight, c: ArchivedHeight, now: int)
  {
    && c.firstSeen == b.firstSeen && c.roundsObserved == b.roundsObserved && c.rounds.Keys == b.rounds.Keys
    && c.lastSeen == (if SameReported(b, c) then b.lastSeen else now)
  }

  /** The block of x in u is that of t, or one that observed another round now, or one created now. */
  ghost predicate BlockAsBefore(t: TrackerState, u: TrackerState, now: int, x: int)
  {
    if x !in u.archive then true
    else if x !in t.archive then u.archive[x].firstSeen == now == u.archive[x].lastSeen
    else
      || u.archive[x] == t.archive[x]
      || (u.archive[x].firstSeen == t.archive[x].firstSeen && u.archive[x].lastSeen == now
        && u.archive[x].roundsObserved != t.archive[x].roundsObserved)
  }

  lemma EnsuredBlock(t: TrackerState, h: int, r: int, now: int, x: int)
    requires h in t.archive
    ensures BlockAsBefore(t, EnsureRound(t, h, r, now), now, x)
    ensures x in EnsureRound(t, h, r, now).archive <==> x in t.archive
  {
    hide NewRound;
  }

  lemma LocatedBlock(t: TrackerState, h: int, r: int, now: int, x: int)
    requires ArchiveOk(t)
    ensures BlockAsBefore(t, Locate(t, h, r, now), now, x)
  {
    var u := EnsureHeight(t, h, now);
    EnsureHeightFacts(t, h, now);
    assert SameBlocksBut(t, u, h, now) && (h in t.archive ==> u == t);
    hide ArchiveOk, EnsureHeight, EnsureRound, HeightFacts;
    if h in u.archive { EnsuredBlock(u, h, r, now, x); }
  }

  lemma SameBlock(b: ArchivedHeight, now: int)
    ensures SameReported(b, b) && Touches(b, b, now)
  {
  }

  lemma TouchedBlock(t: TrackerState, u: TrackerState, e: Timed, h: int, c: ArchivedHeight, x: int)
    requires BlockAsBefore(t, u, e.now, x) && h in u.archive && Touches(u.archive[h], c, e.now)
    ensures BlockStep(t, u.(archive := u.archive[h := c]), e, x)
  {
    if x in u.archive { SameBlock(u.archive[x], e.now); }
    hide SameListing;
  }

  lemma UntouchedBlock(t: TrackerState, u: TrackerState, e: Timed, x: int)
    requires BlockAsBefore(t, u, e.now, x)
    ensures BlockStep(t, u, e, x)
  {
    if x in u.archive { SameBlock(u.archive[x], e.now); }
    hide SameListing;
  }

  lemma RecordTouchesBlock(b: ArchivedHeight, e: Timed)
    requires IsVote(e.op) && e.op.v.round in b.rounds
    ensures Touches(b, RecordVote(b, e.op.v, e.now), e.now)
  {
    var v := e.op.v;
    var rd, rd2, c := b.rounds[v.round], RecordInRound(b.rounds[v.round], v, e.now), RecordVote(b, v, e.now);
    RecordListing(rd, e);
    SameBlock(b, e.now);
    assert c.rounds == b.rounds[v.round := rd2] && c.lastSeen == if Appends(rd, v) then e.now else b.lastSeen;
    hide RecordVote, RecordInRound, Appends, SameListing;
    assert SameListing(b.rounds[v.round], c.rounds[v.round]) == SameListing(rd, rd2);
  }

  lemma RecordListing(rd: ArchivedRound, e: Timed)
    requires IsVote(e.op)
    ensures SameListing(rd, RecordInRound(rd, e.op.v, e.now)) <==> !Appends(rd, e.op.v)
  {
    var v := e.op.v;
    var rd2 := RecordInRound(rd, v, e.now);
    PresentIsListed(rd, v);
    hide Capped, WriteBallot, Listed;
    if Capped(rd, v) || v.hash in Present(rd, v).Hashes() {
      SameVotesListing(rd, rd2);
    } else if |Present(rd, v).hashes| >= HASH_LIMIT {
      WrittenListing(rd, v, Present(rd, v).(truncated := true, conflicting := true), rd2);
    } else {
      WrittenListing(rd, v, Appended(Present(rd, v), v, e.now), rd2);
      assert Listed(rd2, v.addr, v.kind) != Listed(rd, v.addr, v.kind);
    }
  }

  lemma ProposeTouchesBlock(b: ArchivedHeight, r: int, proposer: string, now: int)
    requires r in b.rounds
    ensures Touches(b, Propose(b, r, proposer, now), now)
  {
    SameBlock(b, now);
    var c := Propose(b, r, proposer, now);
    assert c.rounds.Keys == b.rounds.Keys;
    if c != b { assert !SameListing(b.rounds[r], c.rounds[r]); }
  }

  lemma CommitTouchesBlock(b: ArchivedHeight, hash: string, now: int)
    ensures Touches(b, CommitBlock(b, hash, now), now)
  {
    SameBlock(b, now);
  }

  lemma BackfillTouchesBlock(b: ArchivedHeight, m: Roster, now: int)
    ensures Touches(b, Backfill(b, m), now)
  {
    var c := Backfill(b, m);
    assert c.rounds.Keys == b.rounds.Keys;
    forall r | r in b.rounds ensures SameListing(b.rounds[r], c.rounds[r]) { }
  }

  lemma VoteBlocks(t: TrackerState, e: Timed, x: int)
    requires ArchiveOk(t) && (e.op.OpObserveVote? || e.op.OpIngestVote?)
    ensures BlockStep(t, ObserveVote(t, e.op.v, e.now), e, x)
  {
    var v := e.op.v;
    assert BlockAsBefore(t, t, e.now, x);
    hide ArchiveOk, BlockAsBefore, Locate, RecordVote, BlockStep, Touches;
    if ValidVote(v) {
      var u := Locate(t, v.height, v.round, e.now);
      LocatedBlock(t, v.height, v.round, e.now, x);
      if u.Retained(v.height, v.round) {
        RecordTouchesBlock(u.archive[v.height], e);
        TouchedBlock(t, u, e, v.height, RecordVote(u.archive[v.height], v, e.now), x);
      } else {
        UntouchedBlock(t, u, e, x);
      }
    } else {
      UntouchedBlock(t, t, e, x);
    }
  }

  lemma RoundBlocks(t: TrackerState, e: Timed, x: int)
    requires ArchiveOk(t) && e.op.OpObserveRound?
    ensures BlockStep(t, ObserveRound(t, e.op.height, e.op.round, e.op.proposer, e.now), e, x)
  {
    assert BlockAsBefore(t, t, e.now, x);
    hide ArchiveOk, BlockAsBefore, Locate, Propose, BlockStep, Touches;
    var h := e.op.height;
    var u := Locate(t, h, e.op.round, e.now);
    LocatedBlock(t, h, e.op.round, e.now, x);
    UntouchedBlock(t, u, e, x);
    UntouchedBlock(t, t, e, x);
    if u.Retained(h, e.op.round) {
      ProposeTouchesBlock(u.archive[h], e.op.round, e.op.proposer, e.now);
      TouchedBlock(t, u, e, h, Propose(u.archive[h], e.op.round, e.op.proposer, e.now), x);
    }
  }

  lemma CommitBlocks(t: TrackerState, h: int, hash: string, e: Timed, x: int)
    requires ArchiveOk(t)
    ensures BlockStep(t, ArchiveCommit(t, h, hash, e.now), e, x)
  {
    assert BlockAsBefore(t, t, e.now, x);
    var u := CreateHeight(t, h, e.now);
    CreateHeightFacts(t, h, e.now);
    assert BlockAsBefore(t, u, e.now, x);
    hide ArchiveOk, BlockAsBefore, CreateHeight, CommitBlock, BlockStep, Touches, HeightFacts;
    UntouchedBlock(t, t, e, x);
    UntouchedBlock(t, u, e, x);
    if h in u.archive {
      CommitTouchesBlock(u.archive[h], hash, e.now);
      TouchedBlock(t, u, e, h, CommitBlock(u.archive[h], hash, e.now), x);
    }
  }

  lemma SeedBlocks(t: TrackerState, e: Timed, x: int)
    requires e.op.OpSetValidators?
    ensures BlockStep(t, SetValidators(t, e.op.vs), e, x)
  {
    if x in t.archive { BackfillTouchesBlock(t.archive[x], RosterOf(e.op.vs), e.now); }
    hide Backfill, RosterOf, TotalOf, Reweigh, SameReported;
  }

  lemma SameBlocksStep(t: TrackerState, u: TrackerState, w: TrackerState, e: Timed, x: int)
    requires BlockStep(t, u, e, x) && w.archive == u.archive
    ensures BlockStep(t, w, e, x)
  {
    hide SameReported;
  }

  /** Every step stamps the blocks by the rule above. */
  lemma StepStampsBlocks(t: TrackerState, e: Timed, x: int)
    requires ArchiveOk(t)
    ensures BlockStep(t, Step(t, e), e, x)
  {
    assert BlockAsBefore(t, t, e.now, x);
    hide ArchiveOk, BlockStep, BlockAsBefore, SetValidators, ObserveRound, ObserveVote, IngestVote, MarkRoundAdvanced,
      ResolveCommit;
    match e.op
    case OpSetValidators(vs) => SeedBlocks(t, e, x);
    case OpObserveRound(h, r, proposer) => RoundBlocks(t, e, x);
    case OpObserveVote(v) => VoteBlocks(t, e, x);
    case OpIngestVote(v) =>
      VoteBlocks(t, e, x);
      Conservation.IngestKeepsArchive(t, v, e.now);
      SameBlocksStep(t, ObserveVote(t, v, e.now), Step(t, e), e, x);
    case OpMarkRoundAdvanced(h, r) =>
      assert MarkRoundAdvanced(t, h, r).archive == t.archive by { Truncation.MarkKeepsArchive(t, h, r); }
      UntouchedBlock(t, t, e, x);
      SameBlocksStep(t, t, Step(t, e), e, x);
    case OpResolveCommit(h, hash) =>
      CommitBlocks(t, h, hash, e, x);
      ResolveKeepsArchive(t, h, hash, e.now);
      SameBlocksStep(t, ArchiveCommit(t, h, hash, e.now), Step(t, e), e, x);
  }

  // ---------- runs ----------

  /** Call i of the run observed the vote that entry x of a listing records, with the clock at what x says. */
  ghost predicate DeliveredAt(run: seq<Timed>, i: nat, x: HashSeen, h: int, r: int, a: string, k: VoteType)
  {
    && i < |run| && IsVoteFor(run[i].op, h, r, a, k)
    && x == HashSeen(run[i].op.v.hash, run[i].now, run[i].op.v.signedAt)
  }

  /**
   The calls at are those that delivered the entries xs, in the same order; with first, no call before any of them
   observed the same hash.
   */
  ghost predicate Stamps(run: seq<Timed>, at: seq<nat>, xs: seq<HashSeen>, h: int, r: int, a: string, k: VoteType,
        first: bool)
  {
    && |at| == |xs| && (forall j, l :: 0 <= j < l < |at| ==> at[j] < at[l])
    && (forall j :: 0 <= j < |at| ==> DeliveredAt(run, at[j], xs[j], h, r, a, k))
    && (first ==> forall j :: 0 <= j < |at| && at[j] < |run| ==>
          xs[j].hash !in SeenHashes(run[..at[j]], h, r, a, k))
  }

  ghost predicate Stamped(run: seq<Timed>, xs: seq<HashSeen>, h: int, r: int, a: string, k: VoteType, first: bool)
  {
    exists at :: Stamps(run, at, xs, h, r, a, k, first)
  }

  lemma StampsLonger(run: seq<Timed>, e: Timed, at: seq<nat>, xs: seq<HashSeen>, h: int, r: int, a: string, k: VoteType,
        first: bool)
    requires Stamps(run, at, xs, h, r, a, k, first)
    ensures Stamps(run + [e], at, xs, h, r, a, k, first)
    ensures forall j :: 0 <= j < |at| ==> at[j] < |run|
  {
    hide SeenHashes, IsVoteFor;
    forall j | 0 <= j < |at| ensures DeliveredAt(run + [e], at[j], xs[j], h, r, a, k) {
      assert DeliveredAt(run, at[j], xs[j], h, r, a, k);
    }
    if first {
      forall j | 0 <= j < |at| ensures xs[j].hash !in SeenHashes((run + [e])[..at[j]], h, r, a, k) {
        assert DeliveredAt(run, at[j], xs[j], h, r, a, k);
        assert (run + [e])[..at[j]] == run[..at[j]];
      }
    }
  }

  lemma StampOneMore(run: seq<Timed>, e: Timed, at: seq<nat>, xs: seq<HashSeen>, h: int, r: int, a: string, k: VoteType,
        first: bool)
    requires Stamps(run, at, xs, h, r, a, k, first) && IsVoteFor(e.op, h, r, a, k)
    requires first ==> e.op.v.hash !in SeenHashes(run, h, r, a, k)
    ensures Stamps(run + [e], at + [|run|], xs + [HashSeen(e.op.v.hash, e.now, e.op.v.signedAt)], h, r, a, k, first)
  {
    StampsLonger(run, e, at, xs, h, r, a, k, first);
    assert (run + [e])[..|run|] == run;
    hide SeenHashes, IsVoteFor;
  }

  lemma StampsWeaker(run: seq<Timed>, at: seq<nat>, xs: seq<HashSeen>, h: int, r: int, a: string, k: VoteType,
        first: bool)
    requires Stamps(run, at, xs, h, r, a, k, true)
    ensures Stamps(run, at, xs, h, r, a, k, first)
  {
    hide SeenHashes, DeliveredAt;
  }

  /** A hash the round does not hold was never observed before, unless the round was marked truncated. */
  lemma NewHashIsUnseen(cfg: Config, run: seq<Timed>, h: int, r: int, a: string, k: VoteType, hash: string, now: int)
    requires Run(cfg, run).Retained(h, r) || Admissible(Run(cfg, run), h, r)
    requires hash !in Before(Run(cfg, run), h, r, now).Held(a, k) && !Before(Run(cfg, run), h, r, now).truncated
    ensures hash !in SeenHashes(run, h, r, a, k)
  {
    RunRefinesRounds(cfg, run);
    hide Run, SeenHashes, Admissible;
  }

  /** What the last call of a run makes of a listing of a round it leaves retained. */
  lemma LastCallOnListing(cfg: Config, run: seq<Timed>, h: int, r: int, a: string, k: VoteType)
    requires run != [] && Run(cfg, run).Retained(h, r)
    ensures var t, e, rd := Run(cfg, run[..|run| - 1]), run[|run| - 1], Run(cfg, run).archive[h].rounds[r];
      var before := Before(t, h, r, e.now);
      && (Listed(rd, a, k) == Listed(before, a, k) || Extends(before, rd, e, h, r, a, k))
      && (t.Retained(h, r) || Admissible(t, h, r)) && (before.truncated ==> rd.truncated)
  {
    var front, e := run[..|run| - 1], run[|run| - 1];
    RunOk(cfg, front);
    StepFollows(Run(cfg, front), e, h, r);
    StepEvolves(Run(cfg, front), e);
    EvolvesOk(Run(cfg, front), Run(cfg, run));
    Truncation.StepMarksExactly(Run(cfg, front), e);
    NewWasAdmissible(Run(cfg, front), Run(cfg, run), h, r);
    hide Run, Step, ArchiveOk, Ages, Listed, SameListing, Extends, Truncation.Drops, Admissible;
    assert Run(cfg, run) == Step(Run(cfg, front), e) by { LastStep(cfg, run); }
  }

  lemma LastStep(cfg: Config, run: seq<Timed>)
    requires run != []
    ensures Run(cfg, run) == Step(Run(cfg, run[..|run| - 1]), run[|run| - 1])
  {
    hide Step;
  }

  lemma NewWasAdmissible(t: TrackerState, u: TrackerState, h: int, r: int)
    requires Ages(t, u) && u.Retained(h, r)
    ensures t.Retained(h, r) || Admissible(t, h, r)
  {
    hide Admissible;
  }

  /**
   A retained round lists the hashes of a validator and phase in the order of the calls that delivered them, each with
   the clock reading and the signing time of its call. Unless the round is marked truncated these calls are the first
   that observed each hash.
   */
  lemma {:induction false} HashesAreStamped(cfg: Config, run: seq<Timed>, h: int, r: int, a: string, k: VoteType)
    requires Run(cfg, run).Retained(h, r)
    ensures var rd := Run(cfg, run).archive[h].rounds[r];
      Stamped(run, Listed(rd, a, k), h, r, a, k, !rd.truncated)
  {
    hide Run, Listed, Stamps, SeenHashes, NewTracker, Admissible;
    NewIsEmpty(cfg);
    var front, e, rd := run[..|run| - 1], run[|run| - 1], Run(cfg, run).archive[h].rounds[r];
    var t := Run(cfg, front);
    var before := Before(t, h, r, e.now);
    assert run == front + [e];
    LastCallOnListing(cfg, run, h, r, a, k);
    var at: seq<nat> :| Stamps(front, at, Listed(before, a, k), h, r, a, k, !before.truncated) by {
      if t.Retained(h, r) {
        HashesAreStamped(cfg, front, h, r, a, k);
      } else {
        NothingStamped(front, before, h, r, a, k);
      }
    }
    if !before.truncated { StampsWeaker(front, at, Listed(before, a, k), h, r, a, k, !rd.truncated); }
    if Extends(before, rd, e, h, r, a, k) {
      if !rd.truncated { NewHashIsUnseen(cfg, front, h, r, a, k, e.op.v.hash, e.now); }
      StampOneMore(front, e, at, Listed(before, a, k), h, r, a, k, !rd.truncated);
    } else {
      StampsLonger(front, e, at, Listed(before, a, k), h, r, a, k, !rd.truncated);
    }
  }

  lemma NewIsEmpty(cfg: Config)
    ensures forall h, r :: !Run(cfg, []).Retained(h, r)
  {
  }

  lemma NothingStamped(run: seq<Timed>, rd: ArchivedRound, h: int, r: int, a: string, k: VoteType)
    requires rd.votes == map[]
    ensures Stamps(run, [], Listed(rd, a, k), h, r, a, k, !rd.truncated)
  {
  }
}
