/** Laws of whole runs of the tracker: aging, revisions, bounds, one incident per key. */
module TrackerRuns {
  import opened Common
  import opened TrackerTypes
  import opened Archive
  import opened Evidence
  import opened Detector
  import opened Tracker

  // ---------- runs compose ----------

  lemma {:induction false} AfterAppend(t: TrackerState, a: seq<Timed>, b: seq<Timed>)
    ensures After(t, a + b) == After(After(t, a), b)
    decreases |b|
  {
    hide Step;
    if b == [] {
      assert a + b == a;
    } else {
      AfterAppend(t, a, b[..|b| - 1]);
      assert (a + b)[..|a + b| - 1] == a + b[..|b| - 1];
    }
  }

  lemma NewTrackerOk(cfg: Config)
    ensures ArchiveOk(NewTracker(cfg))
  {
  }

  lemma AgesReflexive(t: TrackerState)
    ensures Ages(t, t)
  {
  }

  /** Equal catalogue revisions: the same heights, watermark, newest height and committed height. */
  ghost predicate CatalogueHonest(t: TrackerState, u: TrackerState)
  {
    && t.catalogueRevision <= u.catalogueRevision
    && (t.catalogueRevision == u.catalogueRevision ==>
          && u.archive.Keys == t.archive.Keys && u.archiveEvictedThrough == t.archiveEvictedThrough
          && u.archiveLatestHeight == t.archiveLatestHeight && u.committedHeight == t.committedHeight)
  }

  /** Equal evidence revisions: the same block, down to every hash. */
  ghost predicate EvidenceHonest(t: TrackerState, u: TrackerState)
  {
    forall h :: h in t.archive && h in u.archive ==>
      t.archive[h].revision <= u.archive[h].revision
      && (t.archive[h].revision == u.archive[h].revision ==> t.archive[h] == u.archive[h])
  }

  ghost predicate Later(t: TrackerState, u: TrackerState)
  {
    ArchiveOk(u) && Ages(t, u) && CatalogueHonest(t, u) && EvidenceHonest(t, u)
  }

  lemma EvolvesIsLater(t: TrackerState, u: TrackerState)
    requires Evolves(t, u)
    ensures Later(t, u)
  {
    hide ArchiveOk, Ages;
    forall h | h in t.archive && h in u.archive && t.archive[h].revision == u.archive[h].revision
      ensures t.archive[h] == u.archive[h]
    {
      assert t.archive[h].(revision := 0) == u.archive[h].(revision := 0);
    }
  }

  /** A height retained at both ends was retained throughout. */
  lemma HeightWasRetained(t: TrackerState, u: TrackerState, w: TrackerState, h: int)
    requires Ages(t, u) && Ages(u, w) && ArchiveOk(w) && h in t.archive && h in w.archive
    ensures h in u.archive
  {
    BlockAt(w, h);
  }

  lemma LaterTransitive(t: TrackerState, u: TrackerState, w: TrackerState)
    requires Later(t, u) && Later(u, w)
    ensures Later(t, w)
  {
    AgesTransitive(t, u, w);
    hide ArchiveOk;
    forall h | h in t.archive && h in w.archive ensures h in u.archive { HeightWasRetained(t, u, w, h); }
    hide Ages;
  }

  /** Whatever the inputs, a run only moves forward. */
  lemma {:induction false} RunIsLater(t: TrackerState, run: seq<Timed>)
    requires ArchiveOk(t)
    ensures Later(t, After(t, run))
  {
    hide ArchiveOk, Ages, CatalogueHonest, EvidenceHonest, Step, Evolves;
    if run == [] {
      StaysLater(t);
    } else {
      var before := After(t, run[..|run| - 1]);
      RunIsLater(t, run[..|run| - 1]);
      StepEvolves(before, run[|run| - 1]);
      EvolvesIsLater(before, After(t, run));
      LaterTransitive(t, before, After(t, run));
    }
  }

  lemma StaysLater(t: TrackerState)
    requires ArchiveOk(t)
    ensures Later(t, t)
  {
    AgesReflexive(t);
    hide Ages, ArchiveOk;
  }

  lemma RunOk(cfg: Config, run: seq<Timed>)
    ensures ArchiveOk(Run(cfg, run))
  {
    NewTrackerOk(cfg);
    RunIsLater(NewTracker(cfg), run);
    hide ArchiveOk;
  }

  /** Later states of one run are later in every sense of this module. */
  lemma PrefixIsLater(cfg: Config, run: seq<Timed>, more: seq<Timed>)
    ensures ArchiveOk(Run(cfg, run)) && Later(Run(cfg, run), Run(cfg, run + more))
  {
    hide Later;
    RunOk(cfg, run);
    AfterAppend(NewTracker(cfg), run, more);
    RunIsLater(Run(cfg, run), more);
  }

  // ---------- no resurrection, joint bounds ----------

  /** A height or round that was retained and is gone never comes back. */
  lemma NoResurrection(cfg: Config, run: seq<Timed>, more: seq<Timed>, last: seq<Timed>, h: int, r: int)
    ensures h in Run(cfg, run).archive && h !in Run(cfg, run + more).archive
      ==> h !in Run(cfg, run + more + last).archive
    ensures Run(cfg, run).Retained(h, r) && !Run(cfg, run + more).Retained(h, r)
      ==> !Run(cfg, run + more + last).Retained(h, r)
    ensures Dead(Run(cfg, run), h, r) ==> Dead(Run(cfg, run + more), h, r)
  {
    var t, u, w := Run(cfg, run), Run(cfg, run + more), Run(cfg, run + more + last);
    PrefixIsLater(cfg, run, more);
    PrefixIsLater(cfg, run + more, last);
    hide Run;
    if h in t.archive && h in w.archive { HeightWasRetained(t, u, w, h); }
    if t.Retained(h, r) && w.Retained(h, r) { WasRetained(t, u, w, h, r); }
    if Dead(t, h, r) { DeadStaysDead(t, u, h, r); }
  }

  /** Both kinds of watermark only grow along a run. */
  lemma WatermarksGrow(cfg: Config, run: seq<Timed>, more: seq<Timed>)
    ensures var t, u := Run(cfg, run), Run(cfg, run + more);
      && t.archiveEvictedThrough <= u.archiveEvictedThrough
      && t.committedHeight <= u.committedHeight
      && (forall h :: h in t.archive && h in u.archive ==> t.archive[h].evictedThrough <= u.archive[h].evictedThrough)
  {
    PrefixIsLater(cfg, run, more);
    hide Run, ArchiveOk;
  }

  ghost function KeysAt(t: TrackerState, hs: set<int>): set<Key> { set k | k in t.rounds && k.height in hs }

  ghost function KeysOf(t: TrackerState, h: int, kind: VoteType): set<Key>
  {
    set k | k in t.rounds && k.height == h && k.kind == kind
  }

  lemma KeysOfRound(t: TrackerState, h: int, kind: VoteType)
    requires ArchiveOk(t) && h in t.archive
    ensures |KeysOf(t, h, kind)| <= ROUND_LIMIT
  {
    BlockAt(t, h);
    forall k | k in KeysOf(t, h, kind) ensures k.round in t.archive[h].rounds.Keys { DetectorIsArchived(t, k); }
    InjectionBound(KeysOf(t, h, kind), t.archive[h].rounds.Keys, (k: Key) => k.round);
  }

  lemma KeysSplit(t: TrackerState, hs: set<int>, h: int)
    requires h in hs && forall k :: k in t.rounds ==> k.kind != OtherType
    ensures KeysAt(t, hs) == KeysAt(t, hs - {h}) + KeysOf(t, h, Prevote) + KeysOf(t, h, Precommit)
  {
  }

  lemma KeysStep(t: TrackerState, hs: set<int>, h: int)
    requires ArchiveOk(t) && h in hs && h in t.archive
    ensures |KeysAt(t, hs)| <= |KeysAt(t, hs - {h})| + 256
  {
    assert forall k :: k in t.rounds ==> k.kind != OtherType;
    hide ArchiveOk;
    KeysSplit(t, hs, h);
    hide KeysAt, KeysOf;
    KeysOfRound(t, h, Prevote);
    KeysOfRound(t, h, Precommit);
  }

  lemma KeysAtNone(t: TrackerState)
    ensures KeysAt(t, {}) == {}
  {
  }

  lemma {:induction false} KeysBound(t: TrackerState, hs: set<int>)
    requires ArchiveOk(t) && hs <= t.archive.Keys
    ensures |KeysAt(t, hs)| <= 256 * |hs|
    decreases |hs|
  {
    hide *;
    if hs == {} {
      KeysAtNone(t);
    } else {
      var h := Pick(hs);
      KeysBound(t, hs - {h});
      KeysStep(t, hs, h);
      assert |hs - {h}| == |hs| - 1;
    }
  }

  lemma AllKeys(t: TrackerState)
    requires ArchiveOk(t)
    ensures KeysAt(t, t.archive.Keys) == t.rounds.Keys
  {
    hide BlockOk;
  }

  lemma DetectorBound(t: TrackerState)
    requires ArchiveOk(t)
    ensures |t.rounds| <= 256 * t.cfg.historySize
  {
    KeysBound(t, t.archive.Keys);
    AllKeys(t);
    assert |t.archive.Keys| == |t.archive| <= t.cfg.historySize;
    hide ArchiveOk, KeysAt;
    assert |t.rounds| == |t.rounds.Keys|;
  }

  lemma RoundsAbove(t: TrackerState, h: int)
    requires ArchiveOk(t) && h in t.archive
    ensures h > t.archiveEvictedThrough && |t.archive[h].rounds| <= ROUND_LIMIT
    ensures forall r :: r in t.archive[h].rounds ==> r > t.archive[h].evictedThrough
  {
    BlockAt(t, h);
    hide RoundOk;
  }

  /** In every reachable state both stores stay within their limits, above their watermarks. */
  lemma JointBounds(cfg: Config, run: seq<Timed>)
    ensures var t := Run(cfg, run);
      && |t.archive| <= t.cfg.historySize
      && (forall h :: h in t.archive ==> h > t.archiveEvictedThrough && |t.archive[h].rounds| <= ROUND_LIMIT)
      && (forall h, r :: t.Retained(h, r) ==> r > t.archive[h].evictedThrough)
      && (forall k :: k in t.rounds ==> t.Retained(k.height, k.round))
      && |t.rounds| <= 256 * t.cfg.historySize
  {
    hide Run, BlockOk;
    var t := Run(cfg, run);
    RunOk(cfg, run);
    DetectorBound(t);
    forall h | h in t.archive
      ensures h > t.archiveEvictedThrough && |t.archive[h].rounds| <= ROUND_LIMIT
      ensures forall r :: r in t.archive[h].rounds ==> r > t.archive[h].evictedThrough
    {
      RoundsAbove(t, h);
    }
  }

  // ---------- revisions ----------

  /** One step moves a retained height's evidence revision exactly when it changes its evidence. */
  lemma StepRevisesExactly(cfg: Config, run: seq<Timed>, e: Timed, h: int)
    ensures var t, u := Run(cfg, run), Run(cfg, run + [e]);
      h in t.archive && h in u.archive ==>
        && t.archive[h].revision <= u.archive[h].revision
        && (t.archive[h].revision < u.archive[h].revision
          <==> t.archive[h].(revision := 0) != u.archive[h].(revision := 0))
    ensures var t, u := Run(cfg, run), Run(cfg, run + [e]);
      && t.catalogueRevision <= u.catalogueRevision
      && (t.catalogueRevision < u.catalogueRevision <==>
            !(u.archive.Keys == t.archive.Keys && u.archiveEvictedThrough == t.archiveEvictedThrough
              && u.archiveLatestHeight == t.archiveLatestHeight && u.committedHeight == t.committedHeight))
  {
    var t := Run(cfg, run);
    RunOk(cfg, run);
    assert (run + [e])[..|run|] == run;
    StepEvolves(t, e);
    assert Run(cfg, run + [e]) == Step(t, e);
    hide Run, ArchiveOk, Ages, Step;
  }

  // ---------- observing what is settled ----------

  lemma LocateDead(t: TrackerState, h: int, r: int, now: int)
    requires ArchiveOk(t) && r >= 0 && Dead(t, h, r)
    ensures Locate(t, h, r, now) == t
  {
    if h in t.archive {
      EnsureNothing(t, h, r, now);
    }
  }

  lemma LocateRetained(t: TrackerState, h: int, r: int, now: int)
    requires ArchiveOk(t) && t.Retained(h, r)
    ensures Locate(t, h, r, now) == t
  {
    BlockAt(t, h);
    EnsureRoundFacts(t, h, r, now);
  }

  lemma ReplaceSameBlock(t: TrackerState, h: int)
    requires h in t.archive
    ensures t.(archive := t.archive[h := t.archive[h]]) == t
  {
    assert t.archive[h := t.archive[h]] == t.archive;
  }

  lemma RecordKeepsRounds(b: ArchivedHeight, v: VoteEvent, now: int)
    requires v.round in b.rounds
    ensures RecordVote(b, v, now).rounds.Keys == b.rounds.Keys
  {
  }

  // ---------- one incident per key ----------

  /** The key has had its incident, or its context can never trigger again. */
  ghost predicate Spent(t: TrackerState, k: Key)
  {
    || (k in t.rounds && t.rounds[k].detected)
    || k.height <= t.committedHeight
    || Dead(t, k.height, k.round)
  }

  lemma LostIsDead(t: TrackerState, u: TrackerState, h: int, r: int)
    requires Ages(t, u) && t.Retained(h, r) && !u.Retained(h, r)
    ensures Dead(u, h, r)
  {
  }

  lemma PutBlockPrunes(t: TrackerState, u: TrackerState, h: int, c: ArchivedHeight)
    requires OnlyPruned(t, u) && h in u.archive && c.rounds.Keys == u.archive[h].rounds.Keys
    ensures OnlyPruned(t, u.(archive := u.archive[h := c]))
  {
  }

  lemma LocatePrunes(t: TrackerState, h: int, r: int, now: int)
    requires ArchiveOk(t)
    ensures OnlyPruned(t, Locate(t, h, r, now))
  {
    LocateIsQuiet(t, h, r, now);
    hide ArchiveOk, Ages, CatalogueStep, QuietBlocks, QuietRounds, Dead, Locate, OnlyPruned;
  }

  /** The detector after observing: pruned only. */
  lemma ObserveVotePrunes(t: TrackerState, v: VoteEvent, now: int)
    requires ArchiveOk(t)
    ensures OnlyPruned(t, ObserveVote(t, v, now))
  {
    if ValidVote(v) {
      hide ArchiveOk, OnlyPruned, RecordVote, Locate;
      var u := Locate(t, v.height, v.round, now);
      LocatePrunes(t, v.height, v.round, now);
      if u.Retained(v.height, v.round) {
        RecordKeepsRounds(u.archive[v.height], v, now);
        PutBlockPrunes(t, u, v.height, RecordVote(u.archive[v.height], v, now));
      }
    }
  }

  lemma ProposeKeepsRounds(b: ArchivedHeight, r: int, proposer: string, now: int)
    requires r in b.rounds
    ensures Propose(b, r, proposer, now).rounds.Keys == b.rounds.Keys
  {
  }

  lemma ObserveRoundPrunes(t: TrackerState, h: int, r: int, proposer: string, now: int)
    requires ArchiveOk(t)
    ensures OnlyPruned(t, ObserveRound(t, h, r, proposer, now))
  {
    if !(h <= 0 || r < 0 || r > MAX_ROUND || |proposer| > IDENTITY_LIMIT) {
      hide ArchiveOk, OnlyPruned, Propose, Locate;
      var u := Locate(t, h, r, now);
      LocatePrunes(t, h, r, now);
      if u.Retained(h, r) {
        ProposeKeepsRounds(u.archive[h], r, proposer, now);
        PutBlockPrunes(t, u, h, Propose(u.archive[h], r, proposer, now));
      }
    }
  }

  lemma ArchiveCommitPrunes(t: TrackerState, h: int, hash: string, now: int)
    requires ArchiveOk(t)
    ensures OnlyPruned(t, ArchiveCommit(t, h, hash, now))
  {
    if |hash| <= IDENTITY_LIMIT {
      CreateHeightFacts(t, h, now);
      hide ArchiveOk, Ages, CatalogueStep, SameBlocksBut, CreateHeight, OnlyPruned;
      var u := CreateHeight(t, h, now);
      if h in u.archive { PutBlockPrunes(t, u, h, CommitBlock(u.archive[h], hash, now)); }
    }
  }

  /** What a step does to one detector record that was already there. */
  ghost predicate RecordSurvives(t: TrackerState, u: TrackerState, k: Key)
    requires k in t.rounds
  {
    if k in u.rounds then
      && (t.rounds[k].detected ==> u.rounds[k].detected)
      && (t.rounds[k].advanced ==> u.rounds[k].advanced)
      && t.rounds[k].seen <= u.rounds[k].seen
    else !u.Retained(k.height, k.round) || k.height <= u.committedHeight
  }

  lemma PrunedSurvives(t: TrackerState, u: TrackerState, k: Key)
    requires OnlyPruned(t, u) && k in t.rounds
    ensures RecordSurvives(t, u, k)
    ensures k in u.rounds ==> u.rounds[k] == t.rounds[k]
  {
  }

  lemma IngestSurvives(t: TrackerState, v: VoteEvent, now: int, k: Key)
    requires ArchiveOk(t) && k in t.rounds
    ensures RecordSurvives(t, IngestVote(t, v, now).tracker, k)
  {
    hide ObserveVote, ArchiveOk, ReportOf, Fires, OnlyPruned;
    ObserveVotePrunes(t, v, now);
    PrunedSurvives(t, ObserveVote(t, v, now), k);
  }

  lemma CommitKeepsSize(t: TrackerState, h: int, hash: string, now: int)
    requires ArchiveOk(t)
    ensures 1 <= ArchiveCommit(t, h, hash, now).cfg.historySize
  {
    ArchiveCommitEvolves(t, h, hash, now);
    EvolvesOk(t, ArchiveCommit(t, h, hash, now));
    hide ArchiveCommit;
  }

  lemma CommitSurvives(t: TrackerState, h: int, hash: string, now: int, k: Key)
    requires ArchiveOk(t) && k in t.rounds
    ensures RecordSurvives(t, ResolveCommit(t, h, hash, now), k)
  {
    hide ArchiveCommit, ArchiveOk, ResolvedReports, OnlyPruned;
    ArchiveCommitPrunes(t, h, hash, now);
    CommitKeepsSize(t, h, hash, now);
    PrunedSurvives(t, ArchiveCommit(t, h, hash, now), k);
  }

  lemma SeedSurvives(t: TrackerState, vs: Listing, k: Key)
    requires k in t.rounds
    ensures RecordSurvives(t, SetValidators(t, vs), k)
  {
    hide Backfill;
  }

  lemma StepSurvives(t: TrackerState, e: Timed, k: Key)
    requires ArchiveOk(t) && k in t.rounds
    ensures RecordSurvives(t, Step(t, e), k)
  {
    hide ArchiveOk, SetValidators, ObserveRound, ObserveVote, IngestVote, ResolveCommit, OnlyPruned, RecordSurvives;
    match e.op
    case OpSetValidators(vs) => SeedSurvives(t, vs, k);
    case OpObserveRound(h, r, proposer) =>
      ObserveRoundPrunes(t, h, r, proposer, e.now);
      PrunedSurvives(t, ObserveRound(t, h, r, proposer, e.now), k);
    case OpObserveVote(v) =>
      ObserveVotePrunes(t, v, e.now);
      PrunedSurvives(t, ObserveVote(t, v, e.now), k);
    case OpIngestVote(v) => IngestSurvives(t, v, e.now, k);
    case OpMarkRoundAdvanced(h, r) => MarkSurvives(t, h, r, k);
    case OpResolveCommit(h, hash) => CommitSurvives(t, h, hash, e.now, k);
  }

  lemma MarkSurvives(t: TrackerState, h: int, r: int, k: Key)
    requires k in t.rounds
    ensures RecordSurvives(t, MarkRoundAdvanced(t, h, r), k)
  {
  }

  lemma StepKeepsSpent(t: TrackerState, e: Timed, k: Key)
    requires ArchiveOk(t) && Spent(t, k)
    ensures Spent(Step(t, e), k)
  {
    var u := Step(t, e);
    StepEvolves(t, e);
    EvolvesOk(t, u);
    if Dead(t, k.height, k.round) {
      DeadStaysDead(t, u, k.height, k.round);
    } else if k in t.rounds && t.rounds[k].detected {
      StepSurvives(t, e, k);
      DetectorIsArchived(t, k);
      hide Step, ArchiveOk, Evolves;
      if k !in u.rounds && !u.Retained(k.height, k.round) { LostIsDead(t, u, k.height, k.round); }
    } else {
      assert k.height <= u.committedHeight;
    }
  }

  lemma {:induction false} RunKeepsSpent(t: TrackerState, run: seq<Timed>, k: Key)
    requires ArchiveOk(t) && Spent(t, k)
    ensures Spent(After(t, run), k)
  {
    hide ArchiveOk, Spent, Step, Later;
    if run != [] {
      RunKeepsSpent(t, run[..|run| - 1], k);
      RunIsLater(t, run[..|run| - 1]);
      LaterOk(t, After(t, run[..|run| - 1]));
      StepKeepsSpent(After(t, run[..|run| - 1]), run[|run| - 1], k);
    }
  }

  lemma LaterOk(t: TrackerState, u: TrackerState)
    requires Later(t, u)
    ensures ArchiveOk(u)
  {
  }

  lemma TriggerWasAlive(t: TrackerState, v: VoteEvent, now: int)
    requires ArchiveOk(t) && ObserveVote(t, v, now).Retained(v.height, v.round)
    ensures !Dead(t, v.height, v.round)
  {
    ObserveVoteEvolves(t, v, now);
    EvolvesOk(t, ObserveVote(t, v, now));
    hide ObserveVote, ArchiveOk;
    if Dead(t, v.height, v.round) { DeadStaysDead(t, ObserveVote(t, v, now), v.height, v.round); }
  }

  /** A trigger means a divergent report, above the committed height, for a key never spent before and spent now. */
  lemma TriggerSpends(t: TrackerState, v: VoteEvent, now: int)
    requires ArchiveOk(t) && IngestVote(t, v, now).trigger
    ensures !Spent(t, KeyOf(v)) && Spent(IngestVote(t, v, now).tracker, KeyOf(v))
    ensures v.height > t.committedHeight
    ensures IngestVote(t, v, now).report.Some? && IngestVote(t, v, now).report.value.isDivergent
  {
    ObserveVotePrunes(t, v, now);
    TriggerCounts(t, v, now);
    var u := ObserveVote(t, v, now);
    assert u.committedHeight == t.committedHeight;
    assert KeyOf(v) in t.rounds && KeyOf(v) in u.rounds ==> u.rounds[KeyOf(v)] == t.rounds[KeyOf(v)];
    assert KeyOf(v) in t.rounds ==> KeyOf(v) in u.rounds;
    TriggerWasAlive(t, v, now);
    hide ObserveVote, IngestVote, ArchiveOk, OnlyPruned, Dead;
  }

  /** What a trigger says about the record it fired on. */
  lemma TriggerCounts(t: TrackerState, v: VoteEvent, now: int)
    requires IngestVote(t, v, now).trigger
    ensures var u, w, k := ObserveVote(t, v, now), IngestVote(t, v, now).tracker, KeyOf(v);
      && u.Retained(v.height, v.round) && v.height > u.committedHeight
      && (k in u.rounds ==> !u.rounds[k].detected)
      && k in w.rounds && w.rounds[k].detected
      && IngestVote(t, v, now).report.Some? && IngestVote(t, v, now).report.value.isDivergent
  {
    hide ObserveVote, ReportOf, Settled;
  }

  /** Step i of the run is an ingested vote that triggers an incident for k. */
  ghost predicate TriggersAt(cfg: Config, run: seq<Timed>, i: nat, k: Key)
    requires i < |run|
  {
    && run[i].op.OpIngestVote? && KeyOf(run[i].op.v) == k
    && IngestVote(Run(cfg, run[..i]), run[i].op.v, run[i].now).trigger
  }

  /** Across pruning, eviction and the history cutoff, a key triggers at most one incident. */
  lemma OneIncidentPerKey(cfg: Config, run: seq<Timed>, i: nat, j: nat, k: Key)
    requires i < |run| && j < |run| && TriggersAt(cfg, run, i, k) && TriggersAt(cfg, run, j, k)
    ensures i == j
  {
    if i < j {
      LaterTriggerImpossible(cfg, run, i, j, k);
    } else if j < i {
      LaterTriggerImpossible(cfg, run, j, i, k);
    }
  }

  lemma RunStep(cfg: Config, run: seq<Timed>, i: nat)
    requires i < |run|
    ensures Run(cfg, run[..i + 1]) == Step(Run(cfg, run[..i]), run[i])
  {
    hide Step;
    assert run[..i + 1][..i] == run[..i];
  }

  lemma SpentAfterTrigger(cfg: Config, run: seq<Timed>, i: nat, k: Key)
    requires i < |run| && TriggersAt(cfg, run, i, k)
    ensures !Spent(Run(cfg, run[..i]), k) && Spent(Run(cfg, run[..i + 1]), k)
  {
    hide Run, Spent, IngestVote, ArchiveOk;
    RunStep(cfg, run, i);
    RunOk(cfg, run[..i]);
    TriggerSpends(Run(cfg, run[..i]), run[i].op.v, run[i].now);
  }

  lemma SpentStays(cfg: Config, run: seq<Timed>, more: seq<Timed>, k: Key)
    requires Spent(Run(cfg, run), k)
    ensures Spent(Run(cfg, run + more), k)
  {
    hide Spent, After, ArchiveOk;
    RunOk(cfg, run);
    AfterAppend(NewTracker(cfg), run, more);
    RunKeepsSpent(Run(cfg, run), more, k);
  }

  lemma LaterTriggerImpossible(cfg: Config, run: seq<Timed>, i: nat, j: nat, k: Key)
    requires i < j < |run| && TriggersAt(cfg, run, i, k)
    ensures !TriggersAt(cfg, run, j, k)
  {
    hide TriggersAt, Spent, Run;
    SpentAfterTrigger(cfg, run, i, k);
    var between := run[i + 1..j];
    assert run[..i + 1] + between == run[..j];
    SpentStays(cfg, run[..i + 1], between, k);
    if TriggersAt(cfg, run, j, k) { SpentAfterTrigger(cfg, run, j, k); }
  }

  // ---------- rounds the consensus has left ----------

  /** Late votes for k can no longer trigger: its record is marked, or its context is past. */
  ghost predicate Silenced(t: TrackerState, k: Key)
  {
    || (k in t.rounds && t.rounds[k].advanced)
    || k.height <= t.committedHeight
    || Dead(t, k.height, k.round)
  }

  lemma StepKeepsSilenced(t: TrackerState, e: Timed, k: Key)
    requires ArchiveOk(t) && Silenced(t, k)
    ensures Silenced(Step(t, e), k)
  {
    var u := Step(t, e);
    StepEvolves(t, e);
    EvolvesOk(t, u);
    if Dead(t, k.height, k.round) {
      DeadStaysDead(t, u, k.height, k.round);
    } else if k in t.rounds && t.rounds[k].advanced {
      StepSurvives(t, e, k);
      DetectorIsArchived(t, k);
      hide Step, ArchiveOk, Evolves;
      if k !in u.rounds && !u.Retained(k.height, k.round) { LostIsDead(t, u, k.height, k.round); }
    } else {
      assert k.height <= u.committedHeight;
    }
  }

  lemma {:induction false} RunKeepsSilenced(t: TrackerState, run: seq<Timed>, k: Key)
    requires ArchiveOk(t) && Silenced(t, k)
    ensures Silenced(After(t, run), k)
  {
    hide ArchiveOk, Silenced, Step, Later;
    if run != [] {
      RunKeepsSilenced(t, run[..|run| - 1], k);
      RunIsLater(t, run[..|run| - 1]);
      LaterOk(t, After(t, run[..|run| - 1]));
      StepKeepsSilenced(After(t, run[..|run| - 1]), run[|run| - 1], k);
    }
  }

  lemma SilencedDoesNotTrigger(t: TrackerState, v: VoteEvent, now: int)
    requires ArchiveOk(t) && Silenced(t, KeyOf(v))
    ensures !IngestVote(t, v, now).trigger
  {
    ObserveVotePrunes(t, v, now);
    var u := ObserveVote(t, v, now);
    assert u.committedHeight == t.committedHeight;
    assert KeyOf(v) in u.rounds ==> KeyOf(v) in t.rounds && u.rounds[KeyOf(v)] == t.rounds[KeyOf(v)];
    assert KeyOf(v) in t.rounds && KeyOf(v) !in u.rounds ==> !u.Retained(v.height, v.round);
    hide ObserveVote, ArchiveOk, OnlyPruned, ReportOf, Settled, Dead;
    if u.Retained(v.height, v.round) { TriggerWasAlive(t, v, now); }
  }

  /** A record marked by MarkRoundAdvanced never triggers again, whatever follows. */
  lemma AdvancedRecordStaysSilent(cfg: Config, run: seq<Timed>, more: seq<Timed>, h: int, r: int, v: VoteEvent,
        now: int)
    requires v.height == h && v.round == r && v.kind != OtherType && KeyOf(v) in Run(cfg, run).rounds
    ensures !IngestVote(After(MarkRoundAdvanced(Run(cfg, run), h, r), more), v, now).trigger
  {
    var t := Run(cfg, run);
    RunOk(cfg, run);
    MarkRoundAdvancedEvolves(t, h, r);
    EvolvesOk(t, MarkRoundAdvanced(t, h, r));
    var marked := MarkRoundAdvanced(t, h, r);
    assert Silenced(marked, KeyOf(v)) by { hide Run, Dead; }
    hide Run, Silenced, MarkRoundAdvanced, ArchiveOk, IngestVote, Later;
    RunKeepsSilenced(marked, more, KeyOf(v));
    RunIsLater(marked, more);
    LaterOk(marked, After(marked, more));
    SilencedDoesNotTrigger(After(marked, more), v, now);
  }
}
