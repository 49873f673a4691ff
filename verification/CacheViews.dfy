/**
 internal/web/rounds_cache.go and rounds_compact.go: what a cached report shows for a version of the
 archive, the keys of its encoded variants, and how both relate to reading the tracker directly.
 */
module CacheViews {
  import opened Common
  import opened Decimal
  import opened TrackerTypes
  import opened Archive
  import opened Tracker
  import opened TrackerRuns
  import opened Snapshot
  import opened SnapshotLaws
  import opened RoundsCache
  import Coverage

  // ---------- versions and views ----------

  ghost function VersionAt(cfg: Config, run: seq<Timed>, at: nat, h: int): Version
    requires at <= |run|
  {
    RevisionsAreNatural(cfg, run[..at], h);
    var t := Run(cfg, run[..at]);
    Version(at, EvidenceOf(t, h), t.catalogueRevision, HeaderOf(t, h))
  }

  lemma RevisionsAreNatural(cfg: Config, run: seq<Timed>, h: int)
    ensures EvidenceOf(Run(cfg, run), h) >= 0 && Run(cfg, run).catalogueRevision >= 0
  {
    RunOk(cfg, run);
    NewTrackerOk(cfg);
    RunIsLater(NewTracker(cfg), run);
    if h in Run(cfg, run).archive { ArchiveIsFiled(Run(cfg, run), h); }
    hide After, ArchiveOk;
  }

  lemma ReportFiled(cfg: Config, run: seq<Timed>, h: int)
    ensures h in Run(cfg, run).archive ==> Filed(Run(cfg, run).archive[h])
  {
    RunOk(cfg, run);
    if h in Run(cfg, run).archive { ArchiveIsFiled(Run(cfg, run), h); }
  }

  /** A fresh capture and build at a point of the run. */
  ghost function ReportAt(cfg: Config, run: seq<Timed>, at: nat, h: int): BlockView
    requires at <= |run|
  {
    ReportFiled(cfg, run[..at], h);
    FullReport(Run(cfg, run[..at]), h)
  }

  /** withCatalogue */
  function WithCatalogue(report: BlockView, header: BlockView): BlockView
  {
    report.(heightLimit := header.heightLimit, earliest := header.earliest, latest := header.latest,
      retained := header.retained, status := header.status)
  }

  ghost function RoundsShown(report: BlockView): set<int> { set i | 0 <= i < |report.rounds| :: report.rounds[i].round }

  lemma HeightsInOrder(cfg: Config, run: seq<Timed>, i: nat, j: nat)
    requires i <= j <= |run|
    ensures Later(Run(cfg, run[..i]), Run(cfg, run[..j])) && ArchiveOk(Run(cfg, run[..i]))
      && ArchiveOk(Run(cfg, run[..j]))
  {
    hide Later, ArchiveOk, Run;
    PrefixIsLater(cfg, run[..i], run[i..j]);
    assert run[..i] + run[i..j] == run[..j];
    RunOk(cfg, run[..j]);
  }

  lemma SameEvidenceSameBlock(cfg: Config, run: seq<Timed>, i: nat, j: nat, h: int)
    requires i <= |run| && j <= |run| && EvidenceOf(Run(cfg, run[..i]), h) == EvidenceOf(Run(cfg, run[..j]), h)
    ensures var t, u := Run(cfg, run[..i]), Run(cfg, run[..j]);
      (h in t.archive <==> h in u.archive) && (h in t.archive ==> t.archive[h] == u.archive[h]) && t.cfg == u.cfg
  {
    hide Run, ArchiveOk, CatalogueHonest, EvidenceHonest;
    if i <= j {
      HeightsInOrder(cfg, run, i, j);
      EqualRevisionsMean(Run(cfg, run[..i]), Run(cfg, run[..j]), h);
    } else {
      HeightsInOrder(cfg, run, j, i);
      EqualRevisionsMean(Run(cfg, run[..j]), Run(cfg, run[..i]), h);
    }
  }

  lemma SameBlockFresh(t: TrackerState, u: TrackerState, h: int)
    requires h in t.archive && h in u.archive && t.archive[h] == u.archive[h] && Filed(t.archive[h]) && t.cfg == u.cfg
    ensures WithCatalogue(FullReport(t, h), HeaderOf(u, h)) == FullReport(u, h)
  {
    hide RetainedHeights, RoundViews, SomeTruncated, AllComplete;
  }

  /**
   Refinement: a record whose evidence revision is that of the version shows, with the version's
   catalogue, exactly what a fresh capture and build would at the version's moment, whichever was read first.
   */
  lemma EqualEvidenceIsFresh(cfg: Config, run: seq<Timed>, captured: nat, at: nat, h: int)
    requires captured <= |run| && at <= |run| && VersionAt(cfg, run, at, h).header.found
    requires EvidenceOf(Run(cfg, run[..captured]), h) == VersionAt(cfg, run, at, h).evidence
    ensures WithCatalogue(ReportAt(cfg, run, captured, h), VersionAt(cfg, run, at, h).header)
      == ReportAt(cfg, run, at, h)
  {
    SameEvidenceSameBlock(cfg, run, captured, at, h);
    ReportFiled(cfg, run[..captured], h);
    FoundMeansRetained(Run(cfg, run[..at]), h);
    hide Run, HeaderOf, FullReport, WithCatalogue;
    SameBlockFresh(Run(cfg, run[..captured]), Run(cfg, run[..at]), h);
  }

  lemma FoundMeansRetained(t: TrackerState, h: int)
    ensures HeaderOf(t, h).found <==> h in t.archive
    ensures h in t.archive ==>
      HeaderOf(t, h).coverage.observed == t.archive[h].roundsObserved
      && HeaderOf(t, h).coverage.evicted == t.archive[h].roundsEvicted
    ensures h in t.archive ==>
      HeaderOf(t, h).committed == t.archive[h].committed
      && HeaderOf(t, h).canonicalHash == t.archive[h].canonicalHash
  {
    hide RetainedHeights;
  }

  lemma ReportFields(t: TrackerState, h: int)
    requires h in t.archive ==> Filed(t.archive[h])
    ensures FullReport(t, h).found == HeaderOf(t, h).found && FullReport(t, h).committed == HeaderOf(t, h).committed
    ensures FullReport(t, h).canonicalHash == HeaderOf(t, h).canonicalHash
    ensures FullReport(t, h).coverage.evicted == HeaderOf(t, h).coverage.evicted
      && FullReport(t, h).coverage.observed == HeaderOf(t, h).coverage.observed
  {
    hide HeaderOf;
  }

  lemma ShownRounds(b: ArchivedHeight, rounds: seq<RoundView>)
    requires Elements(rounds) == RoundViews(b, b.rounds.Keys) && Filed(b)
    ensures forall i :: 0 <= i < |rounds| ==> rounds[i].round in b.rounds
    ensures forall r :: r in b.rounds ==> exists i :: 0 <= i < |rounds| && rounds[i].round == r
  {
    hide RowsOf, PhaseOf;
    forall i | 0 <= i < |rounds| ensures rounds[i].round in b.rounds { assert rounds[i] in Elements(rounds); }
    forall r | r in b.rounds ensures exists i :: 0 <= i < |rounds| && rounds[i].round == r {
      var view := RoundViewOf(b.rounds[r], b.canonicalHash, b.committed);
      assert view in Elements(rounds) && view.round == r;
      var i :| 0 <= i < |rounds| && rounds[i] == view;
    }
  }

  /** The full report shows exactly the retained rounds. */
  lemma ReportShowsRetained(t: TrackerState, h: int)
    requires h in t.archive && Filed(t.archive[h])
    ensures RoundsShown(FullReport(t, h)) == t.archive[h].rounds.Keys
  {
    var b, rounds := t.archive[h], FullReport(t, h).rounds;
    RoundsOrdered(b, b.rounds.Keys);
    assert rounds == SortSet(RoundLess, RoundViews(b, b.rounds.Keys)) by { hide HeaderOf, RoundViews; }
    hide *;
    ShownRounds(b, rounds);
    ShownAre(FullReport(t, h), b.rounds.Keys);
  }

  lemma ShownAre(report: BlockView, rounds: set<int>)
    requires forall i :: 0 <= i < |report.rounds| ==> report.rounds[i].round in rounds
    requires forall r :: r in rounds ==> exists i :: 0 <= i < |report.rounds| && report.rounds[i].round == r
    ensures RoundsShown(report) == rounds
  {
    forall r ensures r in RoundsShown(report) <==> r in rounds {
      if r in rounds {
        var i :| 0 <= i < |report.rounds| && report.rounds[i].round == r;
        assert report.rounds[i].round in RoundsShown(report);
      }
    }
  }

  // ---------- coalescing ----------

  lemma {:induction false} AdmittedGrows(cfg: Config, run: seq<Timed>, i: nat, j: nat, h: int)
    requires i <= j <= |run|
    ensures Coverage.Admitted(cfg, run[..i], h) <= Coverage.Admitted(cfg, run[..j], h)
    decreases j
  {
    hide Admissible, Run, Coverage.OfferedRound;
    if i < j {
      AdmittedGrows(cfg, run, i, j - 1, h);
      assert run[..j][..j - 1] == run[..j - 1];
    }
  }

  lemma SplitAtWatermark(admitted: set<int>, rounds: set<int>, watermark: int, evicted: int)
    requires rounds == (set r | r in admitted && r > watermark) && |admitted| == |rounds| + evicted
    ensures |set r | r in admitted && r <= watermark| == evicted
  {
    var gone := set r | r in admitted && r <= watermark;
    assert admitted == rounds + gone;
    assert |rounds + gone| == |rounds| + |gone|;
  }

  /**
   If the same number of rounds was evicted at both moments, nothing retained at the earlier one is gone at the
   later one.
   */
  lemma SameEvictionsKeepRounds(cfg: Config, run: seq<Timed>, i: nat, j: nat, h: int)
    requires i <= j <= |run| && h in Run(cfg, run[..i]).archive && h in Run(cfg, run[..j]).archive
    requires Run(cfg, run[..i]).archive[h].roundsEvicted == Run(cfg, run[..j]).archive[h].roundsEvicted
    ensures Run(cfg, run[..i]).archive[h].rounds.Keys <= Run(cfg, run[..j]).archive[h].rounds.Keys
  {
    var b, c := Run(cfg, run[..i]).archive[h], Run(cfg, run[..j]).archive[h];
    var earlier, later := Coverage.Admitted(cfg, run[..i], h), Coverage.Admitted(cfg, run[..j], h);
    HeightsInOrder(cfg, run, i, j);
    assert b.evictedThrough <= c.evictedThrough;
    AdmittedGrows(cfg, run, i, j, h);
    Coverage.CoverageCountsAdmitted(cfg, run[..i], h);
    Coverage.CoverageCountsAdmitted(cfg, run[..j], h);
    hide Run, Later, ArchiveOk, Coverage.Admitted, MissingRounds;
    KeptAbove(earlier, later, b.rounds.Keys, c.rounds.Keys, b.evictedThrough, c.evictedThrough, b.roundsEvicted);
  }

  lemma KeptAbove(earlier: set<int>, later: set<int>, before: set<int>, after: set<int>, low: int, high: int,
        evicted: int)
    requires earlier <= later && low <= high
    requires before == (set r | r in earlier && r > low) && after == (set r | r in later && r > high)
    requires |earlier| == |before| + evicted && |later| == |after| + evicted
    ensures before <= after
  {
    SplitAtWatermark(earlier, before, low, evicted);
    SplitAtWatermark(later, after, high, evicted);
    var gone, goneLater := set r | r in earlier && r <= low, set r | r in later && r <= high;
    SubsetSize(gone, goneLater);
    assert gone == goneLater;
    forall r | r in before ensures r in after { assert r !in gone && r in later; }
  }

  /**
   Coalescing: a record and a version with the same number of evicted rounds. Captured no later than the
   version, the record shows only rounds still retained. In general it does so if and only if it observed
   no more rounds than the version; a record captured after the version may show newer ones.
   */
  lemma CoalescedRounds(cfg: Config, run: seq<Timed>, captured: nat, at: nat, h: int)
    requires captured <= |run| && at <= |run|
    requires VersionAt(cfg, run, at, h).header.found && ReportAt(cfg, run, captured, h).found
    requires ReportAt(cfg, run, captured, h).coverage.evicted == VersionAt(cfg, run, at, h).header.coverage.evicted
    ensures var shown, retained := RoundsShown(ReportAt(cfg, run, captured, h)), Run(cfg, run[..at]).archive.Keys;
      && h in Run(cfg, run[..at]).archive
      && (shown <= Run(cfg, run[..at]).archive[h].rounds.Keys <==>
            ReportAt(cfg, run, captured, h).coverage.observed <= VersionAt(cfg, run, at, h).header.coverage.observed)
      && (captured <= at ==> shown <= Run(cfg, run[..at]).archive[h].rounds.Keys)
      && (at <= captured ==> Run(cfg, run[..at]).archive[h].rounds.Keys <= shown)
  {
    var t, u := Run(cfg, run[..captured]), Run(cfg, run[..at]);
    FoundMeansRetained(t, h);
    FoundMeansRetained(u, h);
    ReportFiled(cfg, run[..captured], h);
    ReportFields(t, h);
    ReportShowsRetained(t, h);
    Coverage.CoverageCountsAdmitted(cfg, run[..captured], h);
    Coverage.CoverageCountsAdmitted(cfg, run[..at], h);
    hide Run, HeaderOf, FullReport, Coverage.Admitted, MissingRounds;
    if captured <= at { SameEvictionsKeepRounds(cfg, run, captured, at, h); }
    if at <= captured { SameEvictionsKeepRounds(cfg, run, at, captured, h); }
    NestedSizes(t.archive[h].rounds.Keys, u.archive[h].rounds.Keys);
  }

  lemma NestedSizes(a: set<int>, b: set<int>)
    requires a <= b || b <= a
    ensures a <= b <==> |a| <= |b|
  {
    if a <= b {
      SubsetSize(a, b);
    } else {
      SubsetSize(b, a);
    }
  }

  lemma GoneStaysGone(t: TrackerState, u: TrackerState, w: TrackerState, h: int)
    requires Later(t, u) && Later(u, w) && h in t.archive && h !in u.archive
    ensures h !in w.archive
  {
    assert h in w.archive ==> h > w.archiveEvictedThrough;
    hide ArchiveOk;
  }

  /** What get returns after building, at most as old as the version beside it, shows only retained rounds. */
  lemma BuiltAnswerShowsRetained(cfg: Config, run: seq<Timed>, captured: nat, latest: nat, h: int)
    requires captured <= latest <= |run|
    requires VersionAt(cfg, run, latest, h).header.found && ReportAt(cfg, run, captured, h).found
    requires EvidenceOf(Run(cfg, run[..captured]), h) == VersionAt(cfg, run, latest, h).evidence
      || ReportAt(cfg, run, captured, h).coverage.evicted == VersionAt(cfg, run, latest, h).header.coverage.evicted
    ensures h in Run(cfg, run[..latest]).archive
    ensures RoundsShown(ReportAt(cfg, run, captured, h)) <= Run(cfg, run[..latest]).archive[h].rounds.Keys
  {
    var t, u := Run(cfg, run[..captured]), Run(cfg, run[..latest]);
    FoundMeansRetained(t, h);
    FoundMeansRetained(u, h);
    ReportFiled(cfg, run[..captured], h);
    ReportFields(t, h);
    hide Run, HeaderOf, FullReport, RoundsShown;
    if EvidenceOf(t, h) == EvidenceOf(u, h) { SameEvidenceSameBlock(cfg, run, captured, latest, h); }
    CoalescedRounds(cfg, run, captured, latest, h);
  }

  /** A tracker that has seen at most height 1, which is not committed. */
  ghost predicate OnlyFirstHeight(t: TrackerState)
  {
    && t.committedHeight == 0 && t.archiveEvictedThrough == 0 && t.archive.Keys <= {1}
    && (1 in t.archive ==> !t.archive[1].committed)
  }

  lemma FirstHeightIsKept(t: TrackerState)
    requires ArchiveOk(t) && OnlyFirstHeight(t)
    ensures EnsureHeight(t, 1, 0) == if 1 in t.archive then t else InsertHeight(t, 1, 0)
  {
    if 1 !in t.archive {
      assert t.archive.Keys == {};
      InsertedHeights(t, 1, 0);
      assert |t.archive| == |t.archive.Keys| == 0;
    }
    hide BlockOk, InsertHeight, EvictOldestHeight;
  }

  lemma InsertKeepsFirst(t: TrackerState)
    requires OnlyFirstHeight(t) && 1 !in t.archive
    ensures OnlyFirstHeight(InsertHeight(t, 1, 0))
  {
  }

  lemma EnsureKeepsFirst(t: TrackerState, r: int)
    requires OnlyFirstHeight(t) && 1 in t.archive
    ensures OnlyFirstHeight(EnsureRound(t, 1, r, 0))
  {
    hide NewRound;
  }

  lemma PlainRoundIsLocated(t: TrackerState, r: int)
    requires 0 <= r <= MAX_ROUND
    ensures ObserveRound(t, 1, r, "", 0) == Locate(t, 1, r, 0)
  {
    var u := Locate(t, 1, r, 0);
    hide Locate;
    if u.Retained(1, r) { ReplaceSameBlock(u, 1); }
  }

  lemma ObserveKeepsFirst(t: TrackerState, r: int)
    requires ArchiveOk(t) && OnlyFirstHeight(t) && 0 <= r <= MAX_ROUND
    ensures OnlyFirstHeight(ObserveRound(t, 1, r, "", 0))
  {
    PlainRoundIsLocated(t, r);
    FirstHeightIsKept(t);
    hide ArchiveOk, OnlyFirstHeight, EnsureHeight, EnsureRound, InsertHeight, ObserveRound;
    if 1 !in t.archive { InsertKeepsFirst(t); }
    if 1 in EnsureHeight(t, 1, 0).archive { EnsureKeepsFirst(EnsureHeight(t, 1, 0), r); }
  }

  /** Observing a new round of height 1 without a proposer inserts it and nothing else. */
  lemma PlainRound(t: TrackerState, r: int)
    requires ArchiveOk(t) && OnlyFirstHeight(t) && Admissible(t, 1, r) && r <= MAX_ROUND
    requires 1 in t.archive ==> |t.archive[1].rounds| < ROUND_LIMIT
    ensures var u, b := ObserveRound(t, 1, r, "", 0), if 1 in t.archive then t.archive[1] else NewBlock(1, 0);
      1 in u.archive && u.archive[1] == InsertRound(b, r, t.defaultValidators, 0)
  {
    PlainRoundIsLocated(t, r);
    FirstHeightIsKept(t);
    var g := EnsureHeight(t, 1, 0);
    EnsureHeightFacts(t, 1, 0);
    BlockAt(g, 1);
    var b := if 1 in t.archive then t.archive[1] else NewBlock(1, 0);
    assert g.archive[1] == b && g.defaultValidators == t.defaultValidators && g.committedHeight == 0;
    InsertedSize(b, r, t.defaultValidators);
    hide ArchiveOk, BlockOk, EnsureHeight, ObserveRound, InsertRound, EvictOldestRound, Ages;
  }

  lemma InsertedSize(b: ArchivedHeight, r: int, roster: Roster)
    requires r !in b.rounds
    ensures |InsertRound(b, r, roster, 0).rounds| == |b.rounds| + 1
  {
    var g := InsertRound(b, r, roster, 0);
    assert g.rounds.Keys == b.rounds.Keys + {r};
    assert |g.rounds| == |g.rounds.Keys| && |b.rounds| == |b.rounds.Keys|;
  }

  const TWO_ROUNDS: seq<Timed> := [Timed(OpObserveRound(1, 0, ""), 0), Timed(OpObserveRound(1, 1, ""), 0)]

  lemma OneRoundState(cfg: Config)
    ensures var t := Run(cfg, TWO_ROUNDS[..1]);
      && OnlyFirstHeight(t) && ArchiveOk(t) && 1 in t.archive
      && t.archive[1] == InsertRound(NewBlock(1, 0), 0, map[], 0) && t.defaultValidators == map[]
  {
    var s, one := NewTracker(cfg), TWO_ROUNDS[..1];
    assert one[..0] == [] && one[0] == Timed(OpObserveRound(1, 0, ""), 0);
    NewTrackerOk(cfg);
    RunOk(cfg, one);
    PlainRound(s, 0);
    ObserveKeepsFirst(s, 0);
    ObserveRoundPrunes(s, 1, 0, "", 0);
    assert Run(cfg, one) == ObserveRound(s, 1, 0, "", 0) by {
      assert Run(cfg, []) == s;
      hide ObserveRound;
    }
    hide Run, After, ObserveRound, ArchiveOk, InsertRound;
  }

  lemma TwoRoundsState(cfg: Config)
    ensures var t, u := Run(cfg, TWO_ROUNDS[..1]), Run(cfg, TWO_ROUNDS[..2]);
      && 1 in t.archive && t.archive[1].rounds.Keys == {0} && 1 in u.archive && u.archive[1].rounds.Keys == {0, 1}
      && t.archive[1].roundsEvicted == 0 == u.archive[1].roundsEvicted
      && t.archive[1].committed == u.archive[1].committed
      && t.archive[1].canonicalHash == u.archive[1].canonicalHash
  {
    var t, two := Run(cfg, TWO_ROUNDS[..1]), TWO_ROUNDS[..2];
    assert two[..1] == TWO_ROUNDS[..1] && two[1] == Timed(OpObserveRound(1, 1, ""), 0);
    OneRoundState(cfg);
    assert t.archive[1].rounds.Keys == {0};
    assert |t.archive[1].rounds| == |t.archive[1].rounds.Keys| == 1;
    assert Admissible(t, 1, 1) by { hide Run; }
    hide ArchiveOk, OnlyFirstHeight;
    PlainRound(t, 1);
    assert Run(cfg, two) == ObserveRound(t, 1, 1, "", 0) by { hide ObserveRound; }
  }

  /** A version read before round 1 was seen can be served with a record captured after it, which shows round 1. */
  lemma CoalescedRecordMayBeNewer(cfg: Config)
    ensures VersionAt(cfg, TWO_ROUNDS, 1, 1).header.found && ReportAt(cfg, TWO_ROUNDS, 2, 1).found
    ensures ReportAt(cfg, TWO_ROUNDS, 2, 1).coverage.evicted == VersionAt(cfg, TWO_ROUNDS, 1, 1).header.coverage.evicted
    ensures ReportAt(cfg, TWO_ROUNDS, 2, 1).committed == VersionAt(cfg, TWO_ROUNDS, 1, 1).header.committed
    ensures ReportAt(cfg, TWO_ROUNDS, 2, 1).canonicalHash == VersionAt(cfg, TWO_ROUNDS, 1, 1).header.canonicalHash
    ensures 1 in RoundsShown(ReportAt(cfg, TWO_ROUNDS, 2, 1)) && 1 !in Run(cfg, TWO_ROUNDS[..1]).archive[1].rounds
  {
    TwoRoundsState(cfg);
    var t, u := Run(cfg, TWO_ROUNDS[..1]), Run(cfg, TWO_ROUNDS[..2]);
    ReportFiled(cfg, TWO_ROUNDS[..2], 1);
    FoundMeansRetained(t, 1);
    FoundMeansRetained(u, 1);
    ReportFields(u, 1);
    ReportShowsRetained(u, 1);
    hide Run, HeaderOf, FullReport, RoundsShown;
  }

  /**
   A record whose capture found nothing never meets a later version that finds the height: evicted heights stay
   evicted.
   */
  lemma LostHeightStaysLost(cfg: Config, run: seq<Timed>, at: nat, captured: nat, latest: nat, h: int)
    requires at <= captured <= latest <= |run|
    requires VersionAt(cfg, run, at, h).header.found && !ReportAt(cfg, run, captured, h).found
    ensures !VersionAt(cfg, run, latest, h).header.found
  {
    FoundMeansRetained(Run(cfg, run[..at]), h);
    FoundMeansRetained(Run(cfg, run[..captured]), h);
    FoundMeansRetained(Run(cfg, run[..latest]), h);
    ReportFiled(cfg, run[..captured], h);
    ReportFields(Run(cfg, run[..captured]), h);
    HeightsInOrder(cfg, run, at, captured);
    HeightsInOrder(cfg, run, captured, latest);
    hide Run, HeaderOf, FullReport;
    GoneStaysGone(Run(cfg, run[..at]), Run(cfg, run[..captured]), Run(cfg, run[..latest]), h);
  }

  // ---------- compact reports ----------

  datatype GroupSummary = GroupSummary(hash: string, power: int, validatorCount: nat, isCanonical: bool)

  datatype PhaseSummary = PhaseSummary(groups: seq<GroupSummary>, observedPower: int, observedCount: int,
    notObservedPower: int, notObservedCount: nat, conflictingCount: nat)

  datatype RoundSummary = RoundSummary(round: int, proposer: string, firstSeen: int, lastSeen: int,
    rosterComplete: bool, totalPower: int, truncated: bool, prevotes: PhaseSummary, precommits: PhaseSummary)

  function SummarizeGroups(groups: seq<PhaseGroup>): seq<GroupSummary>
  {
    if groups == [] then [] else
      [GroupSummary(groups[0].hash, groups[0].power, |groups[0].validators|, groups[0].isCanonical)]
        + SummarizeGroups(groups[1..])
  }

  /** summarizePhase */
  function SummarizePhase(p: PhaseView): PhaseSummary
  {
    PhaseSummary(SummarizeGroups(p.groups), p.observedPower, p.observedCount, p.notObservedPower, |p.notObserved|,
      |p.conflicting|)
  }

  /** summarizeRounds */
  function SummarizeRounds(rounds: seq<RoundView>): seq<RoundSummary>
  {
    if rounds == [] then [] else
      var r := rounds[0];
      [RoundSummary(r.round, r.proposer, r.firstSeen, r.lastSeen, r.rosterComplete, r.totalPower, r.truncated,
        SummarizePhase(r.prevotes), SummarizePhase(r.precommits))]
        + SummarizeRounds(rounds[1..])
  }

  datatype Selection = Selection(latest: bool, round: nat, comparison: Option<nat>)

  datatype Availability = Available | WasEvicted | WasNotObserved | NoComparison

  datatype Compact = Compact(
    report: BlockView,
    epoch: string,
    revision: string,
    summaries: seq<RoundSummary>,
    details: seq<RoundView>,
    selected: Option<int>,
    compared: Option<int>,
    selection: Availability,
    comparison: Availability)

  /** The index of a round among rounds, or their number. */
  function RoundIndex(rounds: seq<RoundView>, n: int): (i: nat)
    ensures i <= |rounds| && (i < |rounds| ==> rounds[i].round == n) && forall j :: 0 <= j < i ==> rounds[j].round != n
  {
    if rounds == [] || rounds[0].round == n then 0 else RoundIndex(rounds[1..], n) + 1
  }

  /** pick: whether round n can be shown, and why not. */
  function PickRound(r: BlockView, n: int): Availability
  {
    if RoundIndex(r.rounds, n) < |r.rounds| then Available
    else if r.status == Evicted || (r.coverage.evicted > 0 && |r.rounds| > 0 && n < r.rounds[0].round) then WasEvicted
    else WasNotObserved
  }

  function AddDetail(r: BlockView, details: seq<RoundView>, n: int): seq<RoundView>
  {
    if PickRound(r, n) == Available && RoundIndex(details, n) == |details|
      then details + [r.rounds[RoundIndex(r.rounds, n)]] else details
  }

  function Revision(evidence: nat, catalogue: nat): string { Render(evidence) + ":" + Render(catalogue) }

  /** compactReport, given the report with its catalogue. */
  function CompactOf(r: BlockView, evidence: nat, catalogue: nat, epoch: string, sel: Selection): Compact
  {
    var wanted := if !sel.latest then Some(sel.round as int) else if |r.rounds| > 0
      then Some(r.rounds[|r.rounds| - 1].round) else None;
    var selection := if wanted.Some? then PickRound(r, wanted.value) else if r.status == Evicted then WasEvicted
      else WasNotObserved;
    var first := if wanted.Some? then AddDetail(r, [], wanted.value) else [];
    var comparison := if sel.comparison.Some? then PickRound(r, sel.comparison.value) else NoComparison;
    var details := if sel.comparison.Some? then AddDetail(r, first, sel.comparison.value) else first;
    Compact(r.(rounds := []), epoch, Revision(evidence, catalogue), SummarizeRounds(r.rounds), details,
            if selection == Available then wanted else None, if comparison == Available
              then Some(sel.comparison.value as int) else None,
            selection, comparison)
  }

  /** PickRound on the report of a retained height, in terms of what is retained. */
  lemma PickOnRetained(t: TrackerState, h: int, n: int)
    requires h in t.archive && Filed(t.archive[h])
    ensures var b, r := t.archive[h], FullReport(t, h);
      && (PickRound(r, n) == Available <==> n in b.rounds)
      && (PickRound(r, n) == WasEvicted
        <==> n !in b.rounds && b.roundsEvicted > 0 && b.rounds.Keys != {} && forall x :: x in b.rounds ==> n < x)
      && PickRound(r, n) != NoComparison
  {
    ReportShowsRetained(t, h);
    FoundMeansRetained(t, h);
    ReportFields(t, h);
    FirstShown(t, h);
    StatusOfRetained(t, h);
    hide *;
    PickCases(FullReport(t, h), n, t.archive[h].rounds.Keys);
  }

  lemma PickCases(r: BlockView, n: int, rounds: set<int>)
    requires RoundsShown(r) == rounds && r.status != Evicted && (|r.rounds| > 0 <==> rounds != {})
    requires |r.rounds| > 0 ==> r.rounds[0].round in rounds && forall x :: x in rounds ==> r.rounds[0].round <= x
    ensures PickRound(r, n) == Available <==> n in rounds
    ensures PickRound(r, n) == WasEvicted
      <==> n !in rounds && r.coverage.evicted > 0 && rounds != {} && forall x :: x in rounds ==> n < x
    ensures PickRound(r, n) != NoComparison
  {
    assert n in RoundsShown(r) <==> RoundIndex(r.rounds, n) < |r.rounds|;
  }

  /**
   What a compact report says of a requested round of a retained height. "Available" means retained. "Evicted" is said
   of every admitted round that is gone, and also of a round never admitted that lies below the first retained one of a
   height that evicted some. "Not observed" is said of all other rounds.
   */
  lemma SelectionIsHonest(cfg: Config, run: seq<Timed>, h: int, n: int)
    requires h in Run(cfg, run).archive
    ensures Filed(Run(cfg, run).archive[h])
    ensures var b, r := Run(cfg, run).archive[h], FullReport(Run(cfg, run), h);
      var admitted := Coverage.Admitted(cfg, run, h);
      && (PickRound(r, n) == Available <==> n in b.rounds)
      && (PickRound(r, n) == WasEvicted <==>
            n !in b.rounds && (n in admitted || (b.roundsEvicted > 0 && forall x :: x in b.rounds ==> n < x)))
      && (PickRound(r, n) == WasNotObserved <==>
            n !in admitted && !(b.roundsEvicted > 0 && forall x :: x in b.rounds ==> n < x))
  {
    ReportFiled(cfg, run, h);
    var t := Run(cfg, run);
    PickOnRetained(t, h, n);
    Coverage.CoverageCountsAdmitted(cfg, run, h);
    hide Run, Coverage.Admitted, FullReport, PickRound, MissingRounds;
    var b := t.archive[h];
    if n in Coverage.Admitted(cfg, run, h) && n !in b.rounds {
      AdmittedIsBelow(b.rounds.Keys, Coverage.Admitted(cfg, run, h), b.evictedThrough, b.roundsEvicted, n);
    }
  }

  /** Rounds 1 to n of height 1, one after the other. */
  function Ascent(n: nat): seq<Timed>
  {
    if n == 0 then [] else Ascent(n - 1) + [Timed(OpObserveRound(1, n, ""), 0)]
  }

  lemma AscentEnds(n: nat)
    ensures Ascent(n + 1) == Ascent(n) + [Timed(OpObserveRound(1, n + 1, ""), 0)]
  {
  }

  lemma AscentStep(cfg: Config, n: nat)
    ensures Run(cfg, Ascent(n + 1)) == ObserveRound(Run(cfg, Ascent(n)), 1, n + 1, "", 0)
  {
    AscentEnds(n);
    hide ObserveRound, Ascent;
    var e := Timed(OpObserveRound(1, n + 1, ""), 0);
    assert (Ascent(n) + [e])[..|Ascent(n)|] == Ascent(n);
  }

  lemma {:induction false} AscentStaysFirst(cfg: Config, n: nat)
    requires n <= MAX_ROUND
    ensures OnlyFirstHeight(Run(cfg, Ascent(n)))
  {
    hide ObserveRound, ArchiveOk;
    if n > 0 {
      AscentStaysFirst(cfg, n - 1);
      AscentStep(cfg, n - 1);
      RunOk(cfg, Ascent(n - 1));
      hide Run, Ascent, OnlyFirstHeight;
      ObserveKeepsFirst(Run(cfg, Ascent(n - 1)), n);
    }
  }

  lemma NextIsAdmissible(cfg: Config, n: nat)
    requires n <= MAX_ROUND && Coverage.Admitted(cfg, Ascent(n), 1) == Interval(1, n + 1)
    ensures Admissible(Run(cfg, Ascent(n)), 1, n + 1)
  {
    var t := Run(cfg, Ascent(n));
    AscentStaysFirst(cfg, n);
    RunOk(cfg, Ascent(n));
    if 1 in t.archive {
      BlockAt(t, 1);
      Coverage.CoverageCountsAdmitted(cfg, Ascent(n), 1);
      assert n + 1 !in t.archive[1].rounds.Keys;
      assert CountersOk(t.archive[1]);
    }
    hide Run, Ascent, ArchiveOk, Coverage.Admitted, RoundsOk;
  }

  lemma AdmittedMore(cfg: Config, front: seq<Timed>, e: Timed, h: int, r: int)
    requires Coverage.OfferedRound(e.op, h) == Some(r) && Admissible(Run(cfg, front), h, r)
    ensures Coverage.Admitted(cfg, front + [e], h) == Coverage.Admitted(cfg, front, h) + {r}
  {
    assert (front + [e])[..|front|] == front;
    hide Run, Admissible, Coverage.OfferedRound;
  }

  lemma AscentOffers(n: nat)
    requires n <= MAX_ROUND
    ensures Coverage.OfferedRound(OpObserveRound(1, n, ""), 1) == Some(n)
  {
  }

  lemma AscentMore(cfg: Config, n: nat)
    requires n + 1 <= MAX_ROUND && Admissible(Run(cfg, Ascent(n)), 1, n + 1)
    ensures Coverage.Admitted(cfg, Ascent(n + 1), 1) == Coverage.Admitted(cfg, Ascent(n), 1) + {n + 1}
  {
    hide *;
    AscentEnds(n);
    AscentOffers(n + 1);
    AdmittedMore(cfg, Ascent(n), Timed(OpObserveRound(1, n + 1, ""), 0), 1, n + 1);
  }

  lemma AscentStart(cfg: Config)
    ensures Coverage.Admitted(cfg, Ascent(0), 1) == Interval(1, 1)
  {
  }

  lemma {:induction false} AscentAdmits(cfg: Config, n: nat)
    requires n <= MAX_ROUND
    ensures Coverage.Admitted(cfg, Ascent(n), 1) == Interval(1, n + 1)
  {
    hide *;
    if n == 0 {
      AscentStart(cfg);
    } else {
      AscentAdmits(cfg, n - 1);
      NextIsAdmissible(cfg, n - 1);
      AscentMore(cfg, n - 1);
      assert Interval(1, n + 1) == Interval(1, n) + {n};
    }
  }

  /** After rounds 1 to 129 the first is evicted, and round 0, which nobody ever saw, is said to be evicted too. */
  lemma UnseenRoundIsCalledEvicted(cfg: Config)
    ensures var t := Run(cfg, Ascent(129));
      1 in t.archive && Filed(t.archive[1]) && 0 !in Coverage.Offered(Ascent(129), 1)
      && PickRound(FullReport(t, 1), 0) == WasEvicted
  {
    var run := Ascent(129);
    AscentAdmits(cfg, 129);
    IntervalSize(1, 130);
    AscentStaysFirst(cfg, 129);
    Coverage.RunCovers(cfg, run, 1);
    AscentNeverOffers(129);
    var t := Run(cfg, run);
    assert 1 in Interval(1, 130);
    assert 1 in t.archive by { hide Ascent, Run, Coverage.Admitted, Coverage.Counts; }
    Coverage.CoverageCountsAdmitted(cfg, run, 1);
    RunOk(cfg, run);
    BlockAt(t, 1);
    SelectionIsHonest(cfg, run, 1, 0);
    hide Run, Ascent, Coverage.Admitted, FullReport, PickRound, ArchiveOk, RoundsOk, MissingRounds, Coverage.Covers;
    assert forall x :: x in t.archive[1].rounds ==> x in t.archive[1].rounds.Keys;
  }

  lemma {:induction false} AscentNeverOffers(n: nat)
    ensures 0 !in Coverage.Offered(Ascent(n), 1)
  {
    if n > 0 {
      AscentNeverOffers(n - 1);
      assert Ascent(n)[..|Ascent(n)| - 1] == Ascent(n - 1);
    }
  }

  lemma AdmittedIsBelow(rounds: set<int>, admitted: set<int>, watermark: int, evicted: int, n: int)
    requires rounds == (set r | r in admitted && r > watermark) && |admitted| == |rounds| + evicted
    requires n in admitted && n !in rounds
    ensures evicted > 0 && forall x :: x in rounds ==> n < x
  {
    SplitAtWatermark(admitted, rounds, watermark, evicted);
    var gone := set r | r in admitted && r <= watermark;
    assert n in gone;
    assert |gone| > 0;
  }

  lemma StatusOfRetained(t: TrackerState, h: int)
    requires h in t.archive && Filed(t.archive[h])
    ensures FullReport(t, h).status != Evicted
  {
    hide RetainedHeights, RoundViews;
  }

  /** The first listed round is the least retained one. */
  lemma FirstShown(t: TrackerState, h: int)
    requires h in t.archive && Filed(t.archive[h])
    ensures var r := FullReport(t, h);
      (|r.rounds| > 0 <==> t.archive[h].rounds.Keys != {})
      && (|r.rounds| > 0
        ==> r.rounds[0].round in t.archive[h].rounds && forall x :: x in t.archive[h].rounds ==> r.rounds[0].round <= x)
  {
    ReportShowsRetained(t, h);
    var b, rounds := t.archive[h], FullReport(t, h).rounds;
    RoundsOrdered(b, b.rounds.Keys);
    assert Ascending(RoundLess, rounds);
    hide HeaderOf, FullReport;
    if |rounds| > 0 { assert rounds[0].round in RoundsShown(FullReport(t, h)); }
    forall x | x in b.rounds ensures |rounds| > 0 && rounds[0].round <= x {
      assert x in RoundsShown(FullReport(t, h));
      var i :| 0 <= i < |rounds| && rounds[i].round == x;
      if i > 0 { assert RoundLess(rounds[0], rounds[i]); }
    }
  }

  // ---------- variant keys ----------

  datatype Request = FullView(v: Version) | CompactView(v: Version, sel: Selection)

  function Flag(b: bool): string { if b then "true" else "false" }

  function Compared(c: Option<nat>): string { if c.Some? then Render(c.value) else "none" }

  function Join(a: string, x: string): string { a + ":" + x }

  /** The key of a compact view behind the epoch. */
  function CompactKey(evidence: nat, catalogue: nat, sel: Selection): string
  {
    ":" + Join(Render(evidence),
      Join(Render(catalogue), Join(Flag(sel.latest), Join(Render(sel.round), Compared(sel.comparison)))))
  }

  function FullKey(evidence: nat, catalogue: nat): string { "full:" + Join(Render(evidence), Render(catalogue)) }

  predicate Plain(s: string) { forall i :: 0 <= i < |s| ==> s[i] != ':' }

  lemma DigitsArePlain(n: nat)
    ensures Plain(Render(n))
  {
    ReadRender(n);
  }

  /** A text up to its first colon can be read off. */
  lemma SplitAtColon(a: string, x: string, b: string, y: string)
    requires Plain(a) && Plain(b) && Join(a, x) == Join(b, y)
    ensures a == b && x == y
  {
    var s, t := Join(a, x), Join(b, y);
    assert s[|a|] == ':' && t[|b|] == ':';
    assert forall k :: 0 <= k < |a| ==> s[k] == a[k];
    assert forall k :: 0 <= k < |b| ==> t[k] == b[k];
    assert s[..|a|] == a && t[..|b|] == b && s[|a| + 1..] == x && t[|b| + 1..] == y;
  }

  /** Two compact keys of one record are equal only if they ask for the same thing. */
  lemma CompactKeysDiffer(evidence: nat, c1: nat, s1: Selection, c2: nat, s2: Selection)
    requires CompactKey(evidence, c1, s1) == CompactKey(evidence, c2, s2)
    ensures c1 == c2 && s1 == s2
  {
    DigitsArePlain(evidence);
    DigitsArePlain(c1);
    DigitsArePlain(c2);
    DigitsArePlain(s1.round);
    DigitsArePlain(s2.round);
    FlagsArePlain(s1.latest, s2.latest);
    var tail1, tail2 := Join(Render(s1.round), Compared(s1.comparison)),
      Join(Render(s2.round), Compared(s2.comparison));
    var rest1, rest2 := Join(Flag(s1.latest), tail1), Join(Flag(s2.latest), tail2);
    var cat1, cat2 := Join(Render(c1), rest1), Join(Render(c2), rest2);
    assert CompactKey(evidence, c1, s1)[1..] == Join(Render(evidence), cat1);
    assert CompactKey(evidence, c2, s2)[1..] == Join(Render(evidence), cat2);
    hide *;
    SplitAtColon(Render(evidence), cat1, Render(evidence), cat2);
    SplitAtColon(Render(c1), rest1, Render(c2), rest2);
    SplitAtColon(Flag(s1.latest), tail1, Flag(s2.latest), tail2);
    SplitAtColon(Render(s1.round), Compared(s1.comparison), Render(s2.round), Compared(s2.comparison));
    RenderInjective(c1, c2);
    RenderInjective(s1.round, s2.round);
    ComparedInjective(s1.comparison, s2.comparison);
  }

  lemma FlagsArePlain(a: bool, b: bool)
    ensures Plain(Flag(a)) && Plain(Flag(b)) && (Flag(a) == Flag(b) ==> a == b)
  {
    assert |Flag(true)| == 4 && |Flag(false)| == 5;
  }

  lemma ComparedInjective(c: Option<nat>, d: Option<nat>)
    requires Compared(c) == Compared(d)
    ensures c == d
  {
    if c.Some? { ReadRender(c.value); }
    if d.Some? { ReadRender(d.value); }
    if c.Some? && d.Some? { RenderInjective(c.value, d.value); }
    assert "none"[0] == 'n' && !IsDigit('n');
  }

  lemma FullKeysDiffer(evidence: nat, c1: nat, c2: nat)
    requires FullKey(evidence, c1) == FullKey(evidence, c2)
    ensures c1 == c2
  {
    DigitsArePlain(evidence);
    assert FullKey(evidence, c1)[5..] == Join(Render(evidence), Render(c1));
    assert FullKey(evidence, c2)[5..] == Join(Render(evidence), Render(c2));
    hide Join, FullKey, Render, Plain;
    SplitAtColon(Render(evidence), Render(c1), Render(evidence), Render(c2));
    RenderInjective(c1, c2);
  }

  lemma InJoin(c: char, a: string, x: string)
    ensures c in Join(a, x) <==> c in a || c == ':' || c in x
  {
    var s := Join(a, x);
    assert s[|a|] == ':';
    assert forall i :: 0 <= i < |a| ==> s[i] == a[i];
    assert forall i :: 0 <= i < |x| ==> s[|a| + 1 + i] == x[i];
  }

  lemma DigitsHaveNoLetter(n: nat)
    ensures 'e' !in Render(n)
  {
    ReadRender(n);
    assert !IsDigit('e');
  }

  lemma FlagHasLetter(b: bool)
    ensures 'e' in Flag(b)
  {
    assert "true"[3] == 'e' && "false"[4] == 'e';
  }

  /** A compact key spells out a flag; a full key has only digits and colons behind its first word. */
  lemma CompactIsNotFull(epoch: string, evidence: nat, c1: nat, sel: Selection, c2: nat)
    ensures epoch + CompactKey(evidence, c1, sel) != FullKey(evidence, c2)
  {
    var tail := Join(Render(sel.round), Compared(sel.comparison));
    var rest := Join(Flag(sel.latest), tail);
    FlagHasLetter(sel.latest);
    InJoin('e', Flag(sel.latest), tail);
    InJoin('e', Render(c1), rest);
    InJoin('e', Render(evidence), Join(Render(c1), rest));
    DigitsHaveNoLetter(evidence);
    DigitsHaveNoLetter(c2);
    InJoin('e', Render(evidence), Render(c2));
    assert CompactKey(evidence, c1, sel) == ":" + Join(Render(evidence), Join(Render(c1), rest));
    hide Render, Join, Flag, Compared;
    assert 'e' in epoch + CompactKey(evidence, c1, sel);
    assert 'e' !in "full:";
    assert 'e' !in FullKey(evidence, c2);
  }

  // ---------- bodies ----------

  /** JSON encoding, as any function of what is encoded. */
  datatype Marshal = Marshal(full: BlockView -> string, compact: Compact -> string)

  function ViewKey(epoch: string, e: Entry, req: Request): string
  {
    match req
    case FullView(v) => FullKey(e.evidence, v.catalogue)
    case CompactView(v, sel) => epoch + CompactKey(e.evidence, v.catalogue, sel)
  }

  function BodyOf(m: Marshal, epoch: string, e: Entry, req: Request): string
  {
    match req
    case FullView(v) => m.full(WithCatalogue(e.report, v.header))
    case CompactView(v,
      sel) => m.compact(CompactOf(WithCatalogue(e.report, v.header), e.evidence, v.catalogue, epoch, sel))
  }

  /** The record was captured from the run. */
  ghost predicate Genuine(cfg: Config, run: seq<Timed>, e: Entry)
  {
    && e.captured <= |run|
    && e.report == ReportAt(cfg, run, e.captured, e.height)
    && e.evidence == EvidenceOf(Run(cfg, run[..e.captured]), e.height)
  }

  /** The version was read from the run, and get handed it out with the record. */
  ghost predicate Paired(cfg: Config, run: seq<Timed>, e: Entry, v: Version)
  {
    && v.at <= |run| && v == VersionAt(cfg, run, v.at, e.height)
    && v.header.found && e.report.committed == v.header.committed
  }

  lemma SameCatalogueSameRetention(t: TrackerState, u: TrackerState, h: int)
    requires CatalogueHonest(t, u) && t.catalogueRevision == u.catalogueRevision && t.cfg == u.cfg
    requires HeaderOf(t, h).found && HeaderOf(u, h).found && HeaderOf(t, h).committed == HeaderOf(u, h).committed
    ensures var a, b := HeaderOf(t, h), HeaderOf(u, h);
      a.heightLimit == b.heightLimit && a.earliest == b.earliest && a.latest == b.latest && a.retained == b.retained
        && a.status == b.status
  {
    SameHeightsRetained(t, u);
    hide RetainedHeights, CoverageOf;
  }

  lemma SameCatalogueSameView(cfg: Config, run: seq<Timed>, e: Entry, v: Version, w: Version)
    requires Paired(cfg, run, e, v) && Paired(cfg, run, e, w) && v.catalogue == w.catalogue
    ensures WithCatalogue(e.report, v.header) == WithCatalogue(e.report, w.header)
  {
    hide Run, HeaderOf, ArchiveOk, Ages, CatalogueHonest, EvidenceHonest;
    if v.at <= w.at {
      HeightsInOrder(cfg, run, v.at, w.at);
      LaterCatalogue(Run(cfg, run[..v.at]), Run(cfg, run[..w.at]));
      SameCatalogueSameRetention(Run(cfg, run[..v.at]), Run(cfg, run[..w.at]), e.height);
    } else {
      HeightsInOrder(cfg, run, w.at, v.at);
      LaterCatalogue(Run(cfg, run[..w.at]), Run(cfg, run[..v.at]));
      SameCatalogueSameRetention(Run(cfg, run[..w.at]), Run(cfg, run[..v.at]), e.height);
    }
  }

  /** Two requests on one record with the same key have the same body. */
  lemma SameKeySameBody(cfg: Config, run: seq<Timed>, m: Marshal, epoch: string, e: Entry, r1: Request, r2: Request)
    requires Paired(cfg, run, e, r1.v) && Paired(cfg, run, e, r2.v) && ViewKey(epoch, e, r1) == ViewKey(epoch, e, r2)
    ensures BodyOf(m, epoch, e, r1) == BodyOf(m, epoch, e, r2)
  {
    hide Paired, WithCatalogue, CompactOf, CompactKey, FullKey;
    match (r1, r2)
    case (FullView(v), FullView(w)) =>
      FullKeysDiffer(e.evidence, v.catalogue, w.catalogue);
      SameCatalogueSameView(cfg, run, e, v, w);
    case (CompactView(v, s), CompactView(w, s2)) =>
      StripEpoch(epoch, CompactKey(e.evidence, v.catalogue, s), CompactKey(e.evidence, w.catalogue, s2));
      CompactKeysDiffer(e.evidence, v.catalogue, s, w.catalogue, s2);
      SameCatalogueSameView(cfg, run, e, v, w);
    case (FullView(v), CompactView(w, s)) => CompactIsNotFull(epoch, e.evidence, w.catalogue, s, v.catalogue);
    case (CompactView(v, s), FullView(w)) => CompactIsNotFull(epoch, e.evidence, v.catalogue, s, w.catalogue);
  }

  lemma StripEpoch(epoch: string, a: string, b: string)
    requires epoch + a == epoch + b
    ensures a == b
  {
    assert (epoch + a)[|epoch|..] == a && (epoch + b)[|epoch|..] == b;
  }
}
