/**
 The unbounded history of what was observed (the role of internal/testutil/replay/oracle.go), and the
 proof that the bounded archive refines it over every run.
 */
module Oracle {
  import opened Common
  import opened TrackerTypes
  import opened Archive
  import opened Evidence
  import opened Detector
  import opened Tracker
  import opened TrackerRuns

  // ---------- the history ----------

  predicate IsVote(op: Op)
  {
    || (op.OpObserveVote? && ValidVote(op.v))
    || (op.OpIngestVote? && ValidVote(op.v))
  }

  predicate IsVoteFor(op: Op, h: int, r: int, a: string, k: VoteType)
  {
    IsVote(op) && op.v.height == h && op.v.round == r && op.v.addr == a && op.v.kind == k
  }

  /** Every valid hash ever observed for one validator and phase. */
  function SeenHashes(run: seq<Timed>, h: int, r: int, a: string, k: VoteType): set<string>
  {
    if run == [] then {} else
      var last := run[|run| - 1].op;
      SeenHashes(run[..|run| - 1], h, r, a, k) + if IsVoteFor(last, h, r, a, k) then {last.v.hash} else {}
  }

  predicate IsRound(op: Op, h: int, r: int)
  {
    op.OpObserveRound? && op.height == h > 0 && op.round == r && 0 <= r <= MAX_ROUND && |op.proposer| <= IDENTITY_LIMIT
  }

  /** The last proposer announced for a round, if any was. */
  function SeenProposer(run: seq<Timed>, h: int, r: int): string
  {
    if run == [] then "" else
      var last := run[|run| - 1].op;
      if IsRound(last, h, r) && last.proposer != "" then last.proposer else SeenProposer(run[..|run| - 1], h, r)
  }

  predicate IsCommit(op: Op, h: int)
  {
    op.OpResolveCommit? && op.height == h && |op.hash| <= IDENTITY_LIMIT
  }

  function SeenCommit(run: seq<Timed>, h: int): bool
  {
    run != [] && (IsCommit(run[|run| - 1].op, h) || SeenCommit(run[..|run| - 1], h))
  }

  /** The first nonempty hash committed at h. */
  function SeenCanonical(run: seq<Timed>, h: int): string
  {
    if run == [] then "" else
      var before := SeenCanonical(run[..|run| - 1], h);
      if before == "" && IsCommit(run[|run| - 1].op, h) then run[|run| - 1].op.hash else before
  }

  // ---------- refinement ----------

  ghost predicate RefinesRound(run: seq<Timed>, h: int, r: int, rd: ArchivedRound)
  {
    && (forall a, k :: rd.Held(a, k) <= SeenHashes(run, h, r, a, k))
    && (!rd.truncated ==> forall a, k :: rd.Held(a, k) == SeenHashes(run, h, r, a, k))
    && rd.proposer == SeenProposer(run, h, r)
  }

  /** Nothing was ever observed for a round that could still be created. */
  ghost predicate Unseen(run: seq<Timed>, h: int, r: int)
  {
    (forall a, k :: SeenHashes(run, h, r, a, k) == {}) && SeenProposer(run, h, r) == ""
  }

  ghost predicate RefinesRounds(run: seq<Timed>, t: TrackerState)
  {
    && (forall h, r :: t.Retained(h, r) ==> RefinesRound(run, h, r, t.archive[h].rounds[r]))
    && (forall h, r :: Admissible(t, h, r) ==> Unseen(run, h, r))
  }

  ghost predicate RefinesCommits(run: seq<Timed>, t: TrackerState)
  {
    && (forall h ::
      h in t.archive
      ==> t.archive[h].committed == SeenCommit(run, h) && t.archive[h].canonicalHash == SeenCanonical(run, h))
    && (forall h ::
      h !in t.archive && h > 0 && h > t.archiveEvictedThrough ==> !SeenCommit(run, h) && SeenCanonical(run, h) == "")
  }

  // ---------- steps that add no evidence ----------

  ghost predicate SameEvidence(rd: ArchivedRound, rd2: ArchivedRound)
  {
    (forall a, k :: rd2.Held(a, k) == rd.Held(a, k)) && rd2.truncated == rd.truncated && rd2.proposer == rd.proposer
  }

  ghost predicate Blank(rd: ArchivedRound)
  {
    (forall a, k :: rd.Held(a, k) == {}) && !rd.truncated && rd.proposer == ""
  }

  ghost predicate KeptRound(t: TrackerState, u: TrackerState, h: int, r: int)
    requires u.Retained(h, r)
  {
    if t.Retained(h, r) then SameEvidence(t.archive[h].rounds[r], u.archive[h].rounds[r])
    else Admissible(t, h, r) && Blank(u.archive[h].rounds[r])
  }

  ghost predicate EvidenceKept(t: TrackerState, u: TrackerState)
  {
    forall h, r :: u.Retained(h, r) ==> KeptRound(t, u, h, r)
  }

  lemma RefinesRoundsKept(run: seq<Timed>, t: TrackerState, u: TrackerState)
    requires RefinesRounds(run, t) && EvidenceKept(t, u) && Ages(t, u)
    ensures RefinesRounds(run, u)
  {
    forall h, r | Admissible(u, h, r) ensures Unseen(run, h, r) { AdmissibleEarlier(t, u, h, r); }
    hide Ages, Unseen, Admissible;
    forall h, r | u.Retained(h, r) ensures RefinesRound(run, h, r, u.archive[h].rounds[r]) {
      assert KeptRound(t, u, h, r);
      if t.Retained(h, r) {
        assert RefinesRound(run, h, r, t.archive[h].rounds[r]);
      } else {
        BlankRefines(run, h, r, u.archive[h].rounds[r]);
      }
    }
  }

  lemma BlankRefines(run: seq<Timed>, h: int, r: int, rd: ArchivedRound)
    requires Unseen(run, h, r) && Blank(rd)
    ensures RefinesRound(run, h, r, rd)
  {
    hide SeenHashes, SeenProposer;
  }

  lemma QuietIsKept(t: TrackerState, u: TrackerState, h: int, r: int, now: int)
    requires QuietRounds(t, u, h, r, now) && Ages(t, u)
    ensures EvidenceKept(t, u)
  {
    forall x, y | u.Retained(x, y) && !t.Retained(x, y) ensures Admissible(t, x, y) && Blank(u.archive[x].rounds[y]) {
      NewRoundBlank(y, t.defaultValidators, now);
    }
  }

  lemma NewRoundBlank(r: int, roster: Roster, now: int)
    ensures Blank(NewRound(r, roster, now))
  {
  }

  lemma UnchangedArchiveKept(t: TrackerState, u: TrackerState)
    requires u.archive == t.archive
    ensures EvidenceKept(t, u)
  {
  }

  lemma SeedKept(t: TrackerState, vs: Listing)
    ensures EvidenceKept(t, SetValidators(t, vs))
  {
    hide Reweigh, RosterOf, TotalOf;
  }

  /** A created height holds no rounds. */
  lemma CreatedKept(t: TrackerState, u: TrackerState, h: int, now: int)
    requires SameBlocksBut(t, u, h, now)
    ensures EvidenceKept(t, u)
  {
    forall x, y | u.Retained(x, y) ensures t.Retained(x, y) && u.archive[x] == t.archive[x] { }
  }

  lemma SameRoundsKept(t: TrackerState, u: TrackerState, w: TrackerState)
    requires EvidenceKept(t, u) && w.archive.Keys == u.archive.Keys
    requires forall h :: h in u.archive ==> w.archive[h].rounds == u.archive[h].rounds
    ensures EvidenceKept(t, w)
  {
    forall h, r | w.Retained(h, r) ensures KeptRound(t, w, h, r) { assert KeptRound(t, u, h, r); }
  }

  lemma CommitKept(t: TrackerState, h: int, hash: string, now: int)
    requires ArchiveOk(t)
    ensures EvidenceKept(t, ArchiveCommit(t, h, hash, now))
  {
    var u := CreateHeight(t, h, now);
    CreateHeightFacts(t, h, now);
    CreatedKept(t, u, h, now);
    hide ArchiveOk, Ages, CatalogueStep, OnlyPruned, CreateHeight, EvidenceKept, HeightFacts;
    if |hash| > IDENTITY_LIMIT {
      UnchangedArchiveKept(t, t);
    } else if h in u.archive {
      assert CommitBlock(u.archive[h], hash, now).rounds == u.archive[h].rounds;
      SameRoundsKept(t, u, u.(archive := u.archive[h := CommitBlock(u.archive[h], hash, now)]));
    }
  }

  // ---------- one more call at the end of the history ----------

  lemma SeenMore(run: seq<Timed>, e: Timed, h: int, r: int, a: string, k: VoteType)
    ensures SeenHashes(run + [e], h, r, a, k) == SeenHashes(run, h, r, a, k) + if IsVoteFor(e.op, h, r, a, k)
      then {e.op.v.hash} else {}
    ensures SeenProposer(run + [e], h, r)
      == if IsRound(e.op, h, r) && e.op.proposer != "" then e.op.proposer else SeenProposer(run, h, r)
    ensures SeenCommit(run + [e], h) == (IsCommit(e.op, h) || SeenCommit(run, h))
    ensures SeenCanonical(run + [e], h)
      == if SeenCanonical(run, h) == "" && IsCommit(e.op, h) then e.op.hash else SeenCanonical(run, h)
  {
    assert (run + [e])[..|run|] == run;
  }

  /** A call that observes neither a vote nor a round leaves the history of rounds as it was. */
  lemma SilentHistory(run: seq<Timed>, e: Timed, t: TrackerState)
    requires RefinesRounds(run, t) && !IsVote(e.op) && forall h, r :: !(IsRound(e.op, h, r) && e.op.proposer != "")
    ensures RefinesRounds(run + [e], t)
  {
    forall h, r, a, k
      ensures SeenHashes(run + [e], h, r, a, k) == SeenHashes(run, h, r, a, k)
        && SeenProposer(run + [e], h, r) == SeenProposer(run, h, r)
    {
      SeenMore(run, e, h, r, a, k);
    }
    hide Admissible, SeenHashes, SeenProposer;
    forall h, r | t.Retained(h, r) ensures RefinesRound(run + [e], h, r, t.archive[h].rounds[r]) {
      assert RefinesRound(run, h, r, t.archive[h].rounds[r]);
    }
    forall h, r | Admissible(t, h, r) ensures Unseen(run + [e], h, r) { assert Unseen(run, h, r); }
  }

  lemma RecordedRefines(run: seq<Timed>, e: Timed, rd: ArchivedRound, rd2: ArchivedRound)
    requires IsVote(e.op) && Recorded(rd, rd2, e.op.v)
    requires RefinesRound(run, e.op.v.height, e.op.v.round, rd)
    ensures RefinesRound(run + [e], e.op.v.height, e.op.v.round, rd2)
  {
    var v := e.op.v;
    forall a, k
      ensures SeenHashes(run + [e], v.height, v.round, a, k)
        == SeenHashes(run, v.height, v.round, a, k) + if a == v.addr && k == v.kind then {v.hash} else {}
      ensures SeenProposer(run + [e], v.height, v.round) == SeenProposer(run, v.height, v.round)
    {
      SeenMore(run, e, v.height, v.round, a, k);
    }
    SeenMore(run, e, v.height, v.round, v.addr, v.kind);
    hide SeenHashes, SeenProposer;
  }

  /** Other rounds than the one voted in see nothing new. */
  lemma OtherRounds(run: seq<Timed>, e: Timed, h: int, r: int, rd: ArchivedRound)
    requires IsVote(e.op) && !(e.op.v.height == h && e.op.v.round == r)
    ensures RefinesRound(run, h, r, rd) ==> RefinesRound(run + [e], h, r, rd)
    ensures Unseen(run, h, r) ==> Unseen(run + [e], h, r)
  {
    forall a, k
      ensures SeenHashes(run + [e], h, r, a, k) == SeenHashes(run, h, r, a, k)
        && SeenProposer(run + [e], h, r) == SeenProposer(run, h, r)
    {
      SeenMore(run, e, h, r, a, k);
    }
    hide SeenHashes, SeenProposer;
  }

  lemma PutBlockRounds(u: TrackerState, h: int, r: int, c: ArchivedHeight)
    requires h in u.archive && r in u.archive[h].rounds && r in c.rounds
    requires c.rounds == u.archive[h].rounds[r := c.rounds[r]] && c.committed == u.archive[h].committed
      && c.evictedThrough == u.archive[h].evictedThrough
    ensures var w := u.(archive := u.archive[h := c]);
      && (forall x, y :: w.Retained(x, y) <==> u.Retained(x, y))
      && (forall x, y :: w.Retained(x, y) && !(x == h && y == r) ==> w.archive[x].rounds[y] == u.archive[x].rounds[y])
      && (forall x, y :: Admissible(w, x, y) <==> Admissible(u, x, y))
  {
  }

  /** What holds of run carries over to its extension run2, except at (h, r). */
  ghost predicate CarriesOver(run: seq<Timed>, run2: seq<Timed>, h: int, r: int)
  {
    && (forall x, y, rd :: !(x == h && y == r) && RefinesRound(run, x, y, rd) ==> RefinesRound(run2, x, y, rd))
    && (forall x, y :: !(x == h && y == r) && Unseen(run, x, y) ==> Unseen(run2, x, y))
  }

  lemma PutBlockRefines(run: seq<Timed>, run2: seq<Timed>, u: TrackerState, h: int, r: int, c: ArchivedHeight)
    requires RefinesRounds(run, u) && CarriesOver(run, run2, h, r) && u.Retained(h, r) && r in c.rounds
    requires c.rounds == u.archive[h].rounds[r := c.rounds[r]] && c.committed == u.archive[h].committed
      && c.evictedThrough == u.archive[h].evictedThrough
    requires RefinesRound(run2, h, r, c.rounds[r])
    ensures RefinesRounds(run2, u.(archive := u.archive[h := c]))
  {
    PutBlockRounds(u, h, r, c);
    assert !Admissible(u, h, r);
    hide Unseen, RefinesRound, Admissible;
    var w := u.(archive := u.archive[h := c]);
    assert w.archive[h] == c;
    forall x, y | w.Retained(x, y) ensures RefinesRound(run2, x, y, w.archive[x].rounds[y]) {
      if !(x == h && y == r) { assert RefinesRound(run, x, y, u.archive[x].rounds[y]); }
    }
    forall x, y | Admissible(w, x, y) ensures Unseen(run2, x, y) { assert Unseen(run, x, y); }
  }

  lemma DeadRefines(run: seq<Timed>, run2: seq<Timed>, u: TrackerState, h: int, r: int)
    requires RefinesRounds(run, u) && CarriesOver(run, run2, h, r) && Dead(u, h, r)
    ensures RefinesRounds(run2, u)
  {
    hide Unseen, RefinesRound, Admissible;
  }

  lemma VoteRefines(run: seq<Timed>, e: Timed, t: TrackerState)
    requires ArchiveOk(t) && RefinesRounds(run, t) && IsVote(e.op)
    ensures RefinesRounds(run + [e], ObserveVote(t, e.op.v, e.now))
  {
    var v := e.op.v;
    var u := Locate(t, v.height, v.round, e.now);
    LocateIsQuiet(t, v.height, v.round, e.now);
    QuietIsKept(t, u, v.height, v.round, e.now);
    RefinesRoundsKept(run, t, u);
    assert !u.Retained(v.height, v.round) ==> Dead(u, v.height, v.round);
    hide ArchiveOk, Ages, CatalogueStep, QuietBlocks, QuietRounds, OnlyPruned, EvidenceKept, Locate, LocateFacts;
    VoteRefinesLocated(run, e, u);
  }

  lemma VoteRefinesLocated(run: seq<Timed>, e: Timed, u: TrackerState)
    requires IsVote(e.op) && RefinesRounds(run, u)
    requires !u.Retained(e.op.v.height, e.op.v.round) ==> Dead(u, e.op.v.height, e.op.v.round)
    ensures RefinesRounds(run + [e],
      if u.Retained(e.op.v.height, e.op.v.round)
      then u.(archive := u.archive[e.op.v.height := RecordVote(u.archive[e.op.v.height], e.op.v, e.now)]) else u)
  {
    var v := e.op.v;
    var h, r := v.height, v.round;
    forall x, y, rd | !(x == h && y == r) && RefinesRound(run, x, y, rd) ensures RefinesRound(run + [e], x, y, rd) {
      OtherRounds(run, e, x, y, rd);
    }
    forall x, y | !(x == h && y == r) && Unseen(run, x, y) ensures Unseen(run + [e], x, y) {
      OtherRounds(run, e, x, y, NewRound(y, map[], 0));
    }
    assert CarriesOver(run, run + [e], h, r);
    hide Unseen, RefinesRound, CarriesOver;
    if u.Retained(h, r) {
      var c := RecordVote(u.archive[h], v, e.now);
      RecordedInRound(u.archive[h].rounds[r], v, e.now);
      assert RefinesRound(run, h, r, u.archive[h].rounds[r]);
      RecordedRefines(run, e, u.archive[h].rounds[r], c.rounds[r]);
      hide Recorded, RecordInRound, RecordBumps, Appends, RefinesRounds;
      PutBlockRefines(run, run + [e], u, h, r, c);
    } else {
      DeadRefines(run, run + [e], u, h, r);
    }
  }

  lemma ProposerHistory(run: seq<Timed>, e: Timed, h: int, r: int, x: int, y: int)
    requires IsRound(e.op, h, r) && e.op.proposer != ""
    ensures forall a, k :: SeenHashes(run + [e], x, y, a, k) == SeenHashes(run, x, y, a, k)
    ensures SeenProposer(run + [e], x, y) == if x == h && y == r then e.op.proposer else SeenProposer(run, x, y)
  {
    forall a, k ensures SeenHashes(run + [e], x, y, a, k) == SeenHashes(run, x, y, a, k) {
      SeenMore(run, e, x, y, a, k);
    }
    SeenMore(run, e, x, y, "", Prevote);
  }

  lemma ProposeRefines(run: seq<Timed>, e: Timed, h: int, r: int, rd: ArchivedRound, rd2: ArchivedRound)
    requires IsRound(e.op, h, r) && e.op.proposer != "" && RefinesRound(run, h, r, rd)
    requires rd2.votes == rd.votes && rd2.truncated == rd.truncated && rd2.proposer == e.op.proposer
    ensures RefinesRound(run + [e], h, r, rd2)
  {
    ProposerHistory(run, e, h, r, h, r);
    assert forall a, k :: rd2.Held(a, k) == rd.Held(a, k);
    hide SeenHashes, SeenProposer;
  }

  lemma OtherProposers(run: seq<Timed>, e: Timed, h: int, r: int, x: int, y: int, rd: ArchivedRound)
    requires IsRound(e.op, h, r) && e.op.proposer != "" && !(x == h && y == r)
    ensures RefinesRound(run, x, y, rd) ==> RefinesRound(run + [e], x, y, rd)
    ensures Unseen(run, x, y) ==> Unseen(run + [e], x, y)
  {
    ProposerHistory(run, e, h, r, x, y);
    hide SeenHashes, SeenProposer;
  }

  lemma RoundRefinesLocated(run: seq<Timed>, e: Timed, h: int, r: int, u: TrackerState)
    requires IsRound(e.op, h, r) && e.op.proposer != "" && RefinesRounds(run, u)
    requires !u.Retained(h, r) ==> Dead(u, h, r)
    ensures RefinesRounds(run + [e],
      if u.Retained(h, r) then u.(archive := u.archive[h := Propose(u.archive[h], r, e.op.proposer, e.now)]) else u)
  {
    forall x, y, rd | !(x == h && y == r) && RefinesRound(run, x, y, rd) ensures RefinesRound(run + [e], x, y, rd) {
      OtherProposers(run, e, h, r, x, y, rd);
    }
    forall x, y | !(x == h && y == r) && Unseen(run, x, y) ensures Unseen(run + [e], x, y) {
      OtherProposers(run, e, h, r, x, y, NewRound(y, map[], 0));
    }
    assert CarriesOver(run, run + [e], h, r);
    hide Unseen, RefinesRound, CarriesOver;
    if u.Retained(h, r) {
      var b := u.archive[h];
      var c := Propose(b, r, e.op.proposer, e.now);
      assert c.rounds == b.rounds[r := c.rounds[r]];
      assert RefinesRound(run, h, r, b.rounds[r]);
      ProposeRefines(run, e, h, r, b.rounds[r], c.rounds[r]);
      hide RefinesRounds;
      PutBlockRefines(run, run + [e], u, h, r, c);
      if b.rounds[r].proposer == e.op.proposer { ReplaceSameBlock(u, h); }
    } else {
      DeadRefines(run, run + [e], u, h, r);
    }
  }

  lemma RoundRefines(run: seq<Timed>, e: Timed, t: TrackerState)
    requires ArchiveOk(t) && RefinesRounds(run, t) && e.op.OpObserveRound?
    ensures RefinesRounds(run + [e], ObserveRound(t, e.op.height, e.op.round, e.op.proposer, e.now))
  {
    var h, r := e.op.height, e.op.round;
    if !IsRound(e.op, h, r) {
      SilentHistory(run, e, t);
    } else {
      var u := Locate(t, h, r, e.now);
      LocateIsQuiet(t, h, r, e.now);
      QuietIsKept(t, u, h, r, e.now);
      RefinesRoundsKept(run, t, u);
      assert !u.Retained(h, r) ==> Dead(u, h, r);
      hide ArchiveOk, Ages, CatalogueStep, QuietBlocks, QuietRounds, OnlyPruned, EvidenceKept, Locate, RefinesRounds,
        Dead;
      if e.op.proposer != "" {
        RoundRefinesLocated(run, e, h, r, u);
      } else {
        SilentHistory(run, e, u);
        if u.Retained(h, r) { ReplaceSameBlock(u, h); }
      }
    }
  }

  lemma SeedRefinesRounds(run: seq<Timed>, e: Timed, t: TrackerState, vs: Listing)
    requires ArchiveOk(t) && RefinesRounds(run, t) && e.op == OpSetValidators(vs)
    ensures RefinesRounds(run + [e], SetValidators(t, vs))
  {
    hide ArchiveOk, Evolves, Ages, RefinesRounds, SetValidators, EvidenceKept;
    SetValidatorsEvolves(t, vs);
    EvolvesOk(t, SetValidators(t, vs));
    SeedKept(t, vs);
    RefinesRoundsKept(run, t, SetValidators(t, vs));
    SilentHistory(run, e, SetValidators(t, vs));
  }

  lemma IngestRefinesRounds(run: seq<Timed>, e: Timed, t: TrackerState, v: VoteEvent)
    requires ArchiveOk(t) && RefinesRounds(run, t) && e.op == OpIngestVote(v)
    ensures RefinesRounds(run + [e], IngestVote(t, v, e.now).tracker)
  {
    hide ArchiveOk, RefinesRounds, ObserveVote, ReportOf, Fires, AddVote;
    ObserveVoteRefines(run, e, t, v);
    DetectorOnly(run + [e], ObserveVote(t, v, e.now), IngestVote(t, v, e.now).tracker);
  }

  lemma MarkRefinesRounds(run: seq<Timed>, e: Timed, t: TrackerState, h: int, r: int)
    requires RefinesRounds(run, t) && e.op == OpMarkRoundAdvanced(h, r)
    ensures RefinesRounds(run + [e], MarkRoundAdvanced(t, h, r))
  {
    hide RefinesRounds;
    SilentHistory(run, e, t);
    DetectorOnly(run + [e], t, MarkRoundAdvanced(t, h, r));
  }

  lemma StepRefinesRounds(run: seq<Timed>, e: Timed, t: TrackerState)
    requires ArchiveOk(t) && RefinesRounds(run, t)
    ensures RefinesRounds(run + [e], Step(t, e))
  {
    hide ArchiveOk, RefinesRounds, SetValidators, ObserveRound, ObserveVote, IngestVote, MarkRoundAdvanced,
      ResolveCommit;
    match e.op
    case OpSetValidators(vs) => SeedRefinesRounds(run, e, t, vs);
    case OpObserveRound(h, r, proposer) => RoundRefines(run, e, t);
    case OpObserveVote(v) => ObserveVoteRefines(run, e, t, v);
    case OpIngestVote(v) => IngestRefinesRounds(run, e, t, v);
    case OpMarkRoundAdvanced(h, r) => MarkRefinesRounds(run, e, t, h, r);
    case OpResolveCommit(h, hash) => CommitRefinesRounds(run, e, t, h, hash);
  }

  lemma DetectorOnly(run: seq<Timed>, t: TrackerState, u: TrackerState)
    requires RefinesRounds(run, t) && u.archive == t.archive && u.archiveEvictedThrough == t.archiveEvictedThrough
    requires u.committedHeight >= t.committedHeight
    ensures RefinesRounds(run, u)
  {
    hide Unseen, RefinesRound;
  }

  lemma CommitRefinesRounds(run: seq<Timed>, e: Timed, t: TrackerState, h: int, hash: string)
    requires ArchiveOk(t) && RefinesRounds(run, t) && e.op == OpResolveCommit(h, hash)
    ensures RefinesRounds(run + [e], ResolveCommit(t, h, hash, e.now))
  {
    hide *;
    var u, w := ArchiveCommit(t, h, hash, e.now), ResolveCommit(t, h, hash, e.now);
    ResolveKeepsArchive(t, h, hash, e.now);
    CommitKept(t, h, hash, e.now);
    ArchiveCommitEvolves(t, h, hash, e.now);
    EvolvesOk(t, u);
    RefinesRoundsKept(run, t, u);
    NotRound(e.op);
    SilentHistory(run, e, u);
    DetectorOnly(run + [e], u, w);
  }

  /** The archive after a commit is that of its archive half. */
  lemma ResolveKeepsArchive(t: TrackerState, h: int, hash: string, now: int)
    ensures var u, w := ArchiveCommit(t, h, hash, now), ResolveCommit(t, h, hash, now);
      && w.archive == u.archive && w.archiveEvictedThrough == u.archiveEvictedThrough && w.cfg == u.cfg
      && w.committedHeight >= u.committedHeight
  {
    hide ArchiveCommit, ResolvedReports, Close;
  }

  lemma NotRound(op: Op)
    requires op.OpResolveCommit?
    ensures !IsVote(op) && forall h, r :: !IsRound(op, h, r)
  {
  }

  lemma ObserveVoteRefines(run: seq<Timed>, e: Timed, t: TrackerState, v: VoteEvent)
    requires ArchiveOk(t) && RefinesRounds(run, t) && (e.op == OpObserveVote(v) || e.op == OpIngestVote(v))
    ensures RefinesRounds(run + [e], ObserveVote(t, v, e.now))
  {
    hide ArchiveOk, RefinesRounds;
    if ValidVote(v) {
      VoteRefines(run, e, t);
    } else {
      SilentHistory(run, e, t);
    }
  }

  lemma {:induction false} RunRefinesRounds(cfg: Config, run: seq<Timed>)
    ensures RefinesRounds(run, Run(cfg, run))
  {
    hide ArchiveOk, RefinesRounds, Step;
    if run == [] {
      NewRefines(cfg);
    } else {
      var before := run[..|run| - 1];
      RunRefinesRounds(cfg, before);
      RunOk(cfg, before);
      StepRefinesRounds(before, run[|run| - 1], Run(cfg, before));
      assert before + [run[|run| - 1]] == run;
    }
  }

  lemma NewRefines(cfg: Config)
    ensures RefinesRounds([], NewTracker(cfg)) && RefinesCommits([], NewTracker(cfg))
  {
  }

  // ---------- commits ----------

  ghost predicate CommitsKept(t: TrackerState, u: TrackerState)
  {
    && t.archiveEvictedThrough <= u.archiveEvictedThrough
    && (forall h ::
      h in u.archive && h in t.archive
      ==> u.archive[h].committed == t.archive[h].committed && u.archive[h].canonicalHash == t.archive[h].canonicalHash)
    && (forall h ::
      h in u.archive && h !in t.archive
      ==> !u.archive[h].committed && u.archive[h].canonicalHash == "" && h > 0 && h > t.archiveEvictedThrough)
    && (forall h :: h in t.archive && h !in u.archive ==> h <= u.archiveEvictedThrough)
  }

  lemma RefinesCommitsKept(run: seq<Timed>, t: TrackerState, u: TrackerState)
    requires RefinesCommits(run, t) && CommitsKept(t, u)
    ensures RefinesCommits(run, u)
  {
    hide SeenCommit, SeenCanonical;
  }

  lemma SilentCommits(run: seq<Timed>, e: Timed, t: TrackerState)
    requires RefinesCommits(run, t) && forall h :: !IsCommit(e.op, h)
    ensures RefinesCommits(run + [e], t)
  {
    forall h ensures SeenCommit(run + [e], h) == SeenCommit(run, h)
      && SeenCanonical(run + [e], h) == SeenCanonical(run, h) {
      SeenMore(run, e, h, 0, "", Prevote);
    }
    hide SeenCommit, SeenCanonical;
  }

  lemma HeightsArePositive(t: TrackerState)
    requires ArchiveOk(t)
    ensures forall h :: h in t.archive ==> h > 0
  {
    hide BlockOk;
  }

  lemma LostHeights(t: TrackerState, u: TrackerState)
    requires Ages(t, u)
    ensures t.archiveEvictedThrough <= u.archiveEvictedThrough
    ensures forall h :: h in t.archive && h !in u.archive ==> h <= u.archiveEvictedThrough
  {
    hide Admissible;
  }

  lemma CreateKeepsCommits(t: TrackerState, h: int, now: int)
    requires ArchiveOk(t)
    ensures CommitsKept(t, CreateHeight(t, h, now))
  {
    hide ArchiveOk, Ages, CatalogueStep, OnlyPruned, CreateHeight;
    CreateHeightFacts(t, h, now);
    HeightsArePositive(CreateHeight(t, h, now));
    LostHeights(t, CreateHeight(t, h, now));
  }

  ghost predicate CommitsSame(t: TrackerState, u: TrackerState)
  {
    && u.archive.Keys == t.archive.Keys
    && (forall h ::
      h in t.archive
      ==> u.archive[h].committed == t.archive[h].committed && u.archive[h].canonicalHash == t.archive[h].canonicalHash)
    && u.archiveEvictedThrough == t.archiveEvictedThrough
  }

  lemma EnsureRoundCommits(t: TrackerState, h: int, r: int, now: int)
    requires h in t.archive
    ensures CommitsSame(t, EnsureRound(t, h, r, now))
  {
  }

  lemma CommitsKeptTransitive(t: TrackerState, u: TrackerState, w: TrackerState)
    requires CommitsKept(t, u) && CommitsSame(u, w)
    ensures CommitsKept(t, w)
  {
  }

  lemma LocateKeepsCommits(t: TrackerState, h: int, r: int, now: int)
    requires ArchiveOk(t)
    ensures CommitsKept(t, Locate(t, h, r, now))
  {
    hide ArchiveOk, CreateHeight, EnsureRound, CommitsKept, CommitsSame;
    var u := EnsureHeight(t, h, now);
    CreateKeepsCommits(t, h, now);
    assert CommitsKept(t, t) by { CommitsKeptReflexive(t); }
    if h in u.archive {
      EnsureRoundCommits(u, h, r, now);
      CommitsKeptTransitive(t, u, EnsureRound(u, h, r, now));
    }
  }

  lemma CommitsKeptReflexive(t: TrackerState)
    ensures CommitsKept(t, t) && CommitsSame(t, t)
  {
  }

  lemma ObserveKeepsCommits(t: TrackerState, v: VoteEvent, now: int)
    requires ArchiveOk(t)
    ensures CommitsKept(t, ObserveVote(t, v, now))
  {
    hide ArchiveOk, Locate, CommitsKept, RecordInRound, RecordBumps, Appends;
    CommitsKeptReflexive(t);
    if ValidVote(v) {
      var u := Locate(t, v.height, v.round, now);
      LocateKeepsCommits(t, v.height, v.round, now);
      CommitsKeptTransitive(t, u, ObserveVote(t, v, now)) by {
        assert CommitsSame(u, ObserveVote(t, v, now)) by {
          assert ObserveVote(t, v, now).archive.Keys == u.archive.Keys;
        }
      }
    }
  }

  lemma ObserveRoundKeepsCommits(t: TrackerState, h: int, r: int, proposer: string, now: int)
    requires ArchiveOk(t)
    ensures CommitsKept(t, ObserveRound(t, h, r, proposer, now))
  {
    hide ArchiveOk, Locate, CommitsKept;
    CommitsKeptReflexive(t);
    if !(h <= 0 || r < 0 || r > MAX_ROUND || |proposer| > IDENTITY_LIMIT) {
      var u := Locate(t, h, r, now);
      LocateKeepsCommits(t, h, r, now);
      CommitsKeptTransitive(t, u, ObserveRound(t, h, r, proposer, now)) by {
        assert CommitsSame(u, ObserveRound(t, h, r, proposer, now)) by {
          assert ObserveRound(t, h, r, proposer, now).archive.Keys == u.archive.Keys;
        }
      }
    }
  }

  lemma CommitHistory(run: seq<Timed>, e: Timed, x: int)
    ensures !IsCommit(e.op, x)
      ==> SeenCommit(run + [e], x) == SeenCommit(run, x) && SeenCanonical(run + [e], x) == SeenCanonical(run, x)
    ensures IsCommit(e.op, x) ==> SeenCommit(run + [e], x)
    ensures IsCommit(e.op, x) ==>
      SeenCanonical(run + [e], x) == if SeenCanonical(run, x) == "" then e.op.hash else SeenCanonical(run, x)
  {
    SeenMore(run, e, x, 0, "", Prevote);
  }

  lemma CommitInBlock(run: seq<Timed>, e: Timed, u: TrackerState, h: int, hash: string)
    requires RefinesCommits(run, u) && e.op == OpResolveCommit(h, hash) && |hash| <= IDENTITY_LIMIT
      && CanonicalNeedsCommit(run, h)
    requires h !in u.archive ==> h <= u.archiveEvictedThrough || h <= 0
    ensures RefinesCommits(run + [e], if h in u.archive
      then u.(archive := u.archive[h := CommitBlock(u.archive[h], hash, e.now)]) else u)
  {
    forall x
      ensures !IsCommit(e.op, x)
        ==> SeenCommit(run + [e], x) == SeenCommit(run, x) && SeenCanonical(run + [e], x) == SeenCanonical(run, x)
    {
      CommitHistory(run, e, x);
    }
    CommitHistory(run, e, h);
    hide SeenCommit, SeenCanonical;
    if h in u.archive {
      var w := u.(archive := u.archive[h := CommitBlock(u.archive[h], hash, e.now)]);
      assert w.archive.Keys == u.archive.Keys;
    }
  }

  /** canonicalHash is set by the first commit and replaced only while it is empty. */
  lemma CommitRefines(run: seq<Timed>, e: Timed, t: TrackerState, h: int, hash: string)
    requires ArchiveOk(t) && RefinesCommits(run, t) && e.op == OpResolveCommit(h, hash) && CanonicalNeedsCommit(run, h)
    ensures RefinesCommits(run + [e], ArchiveCommit(t, h, hash, e.now))
  {
    hide ArchiveOk, CreateHeight, RefinesCommits, CommitsKept, CommitBlock;
    if |hash| > IDENTITY_LIMIT {
      SilentCommits(run, e, t);
    } else {
      var u := CreateHeight(t, h, e.now);
      CreateKeepsCommits(t, h, e.now);
      CreateFails(t, h, e.now);
      RefinesCommitsKept(run, t, u);
      CommitInBlock(run, e, u, h, hash);
    }
  }

  lemma CreateFails(t: TrackerState, h: int, now: int)
    requires ArchiveOk(t)
    ensures h !in CreateHeight(t, h, now).archive ==> h <= CreateHeight(t, h, now).archiveEvictedThrough || h <= 0
  {
    if !(h <= 0 || h <= t.archiveEvictedThrough || h in t.archive) {
      var g := InsertHeight(t, h, now);
      if |g.archive| > t.cfg.historySize { EvictHeightAges(t, g, h, now); }
    }
    hide ArchiveOk;
  }

  ghost predicate CanonicalNeedsCommit(run: seq<Timed>, h: int)
  {
    SeenCanonical(run, h) != "" ==> SeenCommit(run, h)
  }

  lemma {:induction false} CanonicalCommits(run: seq<Timed>, h: int)
    ensures CanonicalNeedsCommit(run, h)
  {
    if run != [] { CanonicalCommits(run[..|run| - 1], h); }
  }

  lemma StepRefinesCommits(run: seq<Timed>, e: Timed, t: TrackerState)
    requires ArchiveOk(t) && RefinesCommits(run, t)
    ensures RefinesCommits(run + [e], Step(t, e))
  {
    hide ArchiveOk, RefinesCommits, ObserveVote, ObserveRound, ArchiveCommit, CommitsKept;
    match e.op
    case OpSetValidators(vs) => SeedCommits(run, e, t, vs);
    case OpObserveRound(h, r, proposer) =>
      ObserveRoundKeepsCommits(t, h, r, proposer, e.now);
      RefinesCommitsKept(run, t, Step(t, e));
      SilentCommits(run, e, Step(t, e));
    case OpObserveVote(v) =>
      ObserveKeepsCommits(t, v, e.now);
      RefinesCommitsKept(run, t, Step(t, e));
      SilentCommits(run, e, Step(t, e));
    case OpIngestVote(v) =>
      ObserveKeepsCommits(t, v, e.now);
      RefinesCommitsKept(run, t, ObserveVote(t, v, e.now));
      SilentCommits(run, e, ObserveVote(t, v, e.now));
      DetectorOnlyCommits(run + [e], ObserveVote(t, v, e.now), Step(t, e));
    case OpMarkRoundAdvanced(h, r) =>
      SilentCommits(run, e, t);
      DetectorOnlyCommits(run + [e], t, Step(t, e));
    case OpResolveCommit(h, hash) =>
      CanonicalCommits(run, h);
      CommitRefines(run, e, t, h, hash);
      DetectorOnlyCommits(run + [e], ArchiveCommit(t, h, hash, e.now), Step(t, e));
  }

  lemma DetectorOnlyCommits(run: seq<Timed>, t: TrackerState, u: TrackerState)
    requires RefinesCommits(run, t) && u.archive == t.archive && u.archiveEvictedThrough == t.archiveEvictedThrough
    ensures RefinesCommits(run, u)
  {
    hide SeenCommit, SeenCanonical;
  }

  lemma SeedCommits(run: seq<Timed>, e: Timed, t: TrackerState, vs: Listing)
    requires RefinesCommits(run, t) && e.op == OpSetValidators(vs)
    ensures RefinesCommits(run + [e], SetValidators(t, vs))
  {
    var u := SetValidators(t, vs);
    assert u.archive.Keys == t.archive.Keys;
    assert CommitsKept(t, u);
    RefinesCommitsKept(run, t, u);
    SilentCommits(run, e, u);
  }

  lemma {:induction false} RunRefinesCommits(cfg: Config, run: seq<Timed>)
    ensures RefinesCommits(run, Run(cfg, run))
  {
    hide ArchiveOk, RefinesCommits, Step;
    if run == [] {
      NewRefines(cfg);
    } else {
      var before := run[..|run| - 1];
      RunRefinesCommits(cfg, before);
      RunOk(cfg, before);
      StepRefinesCommits(before, run[|run| - 1], Run(cfg, before));
      assert before + [run[|run| - 1]] == run;
    }
  }

  // ---------- the refinement theorem ----------

  lemma HeldFacts(r: int, rd: ArchivedRound, a: string, k: VoteType)
    requires RoundOk(r, rd)
    ensures |rd.Held(a, k)| <= HASH_LIMIT
    ensures rd.Vote(a, k).Some? ==> (rd.Vote(a, k).value.conflicting <==> |rd.Held(a, k)| >= 2)
    ensures rd.Vote(a, k).Some? <==> rd.Held(a, k) != {}
  {
    if rd.Vote(a, k).Some? {
      var vote := rd.Vote(a, k).value;
      HashCount(vote.hashes);
      assert vote.Hashes() == PhaseVote(vote.hashes, false, false).Hashes();
    }
  }

  /**
   In every reachable state a retained round that is not marked truncated holds exactly the hashes ever
   observed, a truncated one holds some of them and never more than four, a voter conflicts exactly
   when two hashes are held, and proposer, commit flag and canonical hash are those of the history.
   */
  lemma ArchiveRefinesOracle(cfg: Config, run: seq<Timed>, h: int, r: int, a: string, k: VoteType)
    requires Run(cfg, run).Retained(h, r)
    ensures var b := Run(cfg, run).archive[h]; var rd := b.rounds[r];
      && rd.Held(a, k) <= SeenHashes(run, h, r, a, k) && |rd.Held(a, k)| <= HASH_LIMIT
      && (!rd.truncated ==> rd.Held(a, k) == SeenHashes(run, h, r, a, k))
      && (rd.Vote(a, k).Some? ==> (rd.Vote(a, k).value.conflicting <==> |rd.Held(a, k)| >= 2))
      && rd.proposer == SeenProposer(run, h, r)
      && b.committed == SeenCommit(run, h) && b.canonicalHash == SeenCanonical(run, h)
  {
    RunOk(cfg, run);
    RunRefinesRounds(cfg, run);
    RunRefinesCommits(cfg, run);
    hide Run, SeenHashes, SeenProposer, SeenCommit, SeenCanonical;
    var t := Run(cfg, run);
    BlockAt(t, h);
    HeldFacts(r, t.archive[h].rounds[r], a, k);
    assert RefinesRound(run, h, r, t.archive[h].rounds[r]);
  }
}
