/**
 The one way a cached answer can be ahead of the version beside it: get reads the version before it takes the cache
 lock, so a record built from later evidence may be there by then.
 */
module Coalescing {
  import opened Common
  import opened TrackerTypes
  import opened Archive
  import opened Tracker
  import opened TrackerRuns
  import opened Snapshot
  import opened SnapshotLaws
  import opened RoundsCache
  import opened CacheViews
  import opened CacheRuns

  /** A server whose encoder writes nothing, so that every record fits. */
  function Terse(cfg: Config): Setting { Setting(cfg, "", Marshal((r: BlockView) => "", (c: Compact) => "")) }

  /**
   Round 0 of height 1 is observed; caller 1 reads the version; round 1 is observed; caller 0 finds nothing cached,
   builds the report and publishes it; only now caller 1 takes the lock.
   */
  const OVERTAKEN: seq<Act> := [
    Track(TWO_ROUNDS[0]),
    Track(TWO_ROUNDS[1]),
    StartGet(0, 1, 2, false, 0),
    FinishGet(0, 0, false, 2, 2, 0),
    StartGet(1, 1, 1, true, 0)]

  ghost function NewerRecord(cfg: Config): Entry { Built(Terse(cfg), TWO_ROUNDS, 1, 2, 0) }

  const IN_FLIGHT := Cache(map[], map[], {1}, 0)

  ghost function Published(cfg: Config): Cache { Cache(map[0 := NewerRecord(cfg)], map[1 := 0], {}, 0) }

  const ONE_ROUND := World(TWO_ROUNDS[..1], EMPTY_CACHE, map[], map[])

  const BOTH_ROUNDS := World(TWO_ROUNDS, EMPTY_CACHE, map[], map[])

  const BUILDING := World(TWO_ROUNDS, IN_FLIGHT, map[0 := Task(1, 2)], map[])

  ghost function Listed(cfg: Config): World { World(TWO_ROUNDS, Published(cfg), map[], map[]) }

  ghost function Served(cfg: Config): World { World(TWO_ROUNDS, Touch(Published(cfg), 0, 0), map[], map[]) }

  ghost function Worlds(cfg: Config): seq<World>
  {
    [NEW_WORLD, ONE_ROUND, BOTH_ROUNDS, BUILDING, Listed(cfg), Served(cfg)]
  }

  lemma RoundsAreTracked(s: Setting)
    ensures Does(s, NEW_WORLD, Track(TWO_ROUNDS[0]), ONE_ROUND)
    ensures Does(s, ONE_ROUND, Track(TWO_ROUNDS[1]), BOTH_ROUNDS)
  {
    assert TWO_ROUNDS[..1] == [TWO_ROUNDS[0]] && [] + [TWO_ROUNDS[0]] == [TWO_ROUNDS[0]];
    assert TWO_ROUNDS == TWO_ROUNDS[..1] + [TWO_ROUNDS[1]];
    hide Built, LookedUp, PublishedTo, EncodedTo, VariantLookup, VersionAt;
  }

  lemma BothFound(cfg: Config)
    ensures VersionAt(cfg, TWO_ROUNDS, 2, 1).header.found && ReportAt(cfg, TWO_ROUNDS, 2, 1).found
  {
    TwoRoundsState(cfg);
    ReportFiled(cfg, TWO_ROUNDS[..2], 1);
    FoundMeansRetained(Run(cfg, TWO_ROUNDS[..2]), 1);
    ReportFields(Run(cfg, TWO_ROUNDS[..2]), 1);
    hide Run, HeaderOf, FullReport;
  }

  lemma FirstBuilds(cfg: Config)
    ensures Does(Terse(cfg), BOTH_ROUNDS, StartGet(0, 1, 2, false, 0), BUILDING)
  {
    BothFound(cfg);
    hide VersionAt, ReportAt, Published, Serves;
    assert LookedUp(Terse(cfg), BOTH_ROUNDS, 1, 2, false, 0) == Looked(IN_FLIGHT, Build);
  }

  lemma RecordIsSmall(cfg: Config)
    ensures var e := NewerRecord(cfg); e.size == 0 && e.height == 1 && e.builtAt == 0 && EntryOk(e)
    ensures NewerRecord(cfg).report == ReportAt(cfg, TWO_ROUNDS, 2, 1)
    ensures NewerRecord(cfg).evidence == EvidenceOf(Run(cfg, TWO_ROUNDS[..2]), 1)
  {
    BuiltIsGenuine(Terse(cfg), TWO_ROUNDS, 1, 2, 0);
    hide Run, FullReport, ReportAt;
  }

  /** The cache that holds just this record, while the flight of its height is open. */
  function Holding(e: Entry): Cache { Cache(map[0 := e], map[1 := 0], {1}, 0) }

  lemma InsertedIs(e: Entry)
    requires e.size == 0
    ensures Insert(IN_FLIGHT, 1, 0, e) == Holding(e)
  {
  }

  lemma InFlightBalances()
    ensures Balanced(IN_FLIGHT)
  {
    assert Sum({}, Sizes(map[], map[])) == 0;
  }

  lemma HoldingIsTrimmed(e: Entry)
    requires e.size == 0 && e.height == 1
    ensures TrimmedTo(Insert(IN_FLIGHT, 1, 0, e), Holding(e))
  {
    hide Balanced, Insert, Trimming;
    InFlightBalances();
    InsertedIs(e);
    InsertKeepsBalance(IN_FLIGHT, 1, 0, e);
    TrimStart(Holding(e));
  }

  lemma HoldingIsPublished(e: Entry, v: Version)
    requires e.size == 0 && e.height == 1 && v.header.found && e.report.found
    ensures PublishedTo(IN_FLIGHT, Cache(map[0 := e], map[1 := 0], {}, 0), 1, 0, Some(e), v)
  {
    HoldingIsTrimmed(e);
    hide TrimmedTo, Insert;
    assert Cache(map[0 := e], map[1 := 0], {}, 0) == Holding(e).(flights := Holding(e).flights - {1});
  }

  lemma FirstPublishes(cfg: Config)
    ensures Does(Terse(cfg), BUILDING, FinishGet(0, 0, false, 2, 2, 0), Listed(cfg))
  {
    BothFound(cfg);
    RecordIsSmall(cfg);
    hide VersionAt, ReportAt, PublishedTo, Built;
    HoldingIsPublished(NewerRecord(cfg), VersionAt(cfg, TWO_ROUNDS, 2, 1));
    assert map[0 := Task(1, 2)] - {0} == map[];
  }

  lemma RecordCoalesces(cfg: Config)
    ensures LookedUp(Terse(cfg), Listed(cfg), 1, 1, true, 0) == Looked(Touch(Published(cfg), 0, 0), Hit(0))
  {
    CoalescedRecordMayBeNewer(cfg);
    RecordIsSmall(cfg);
    hide VersionAt, ReportAt, NewerRecord, RoundsShown;
  }

  lemma SecondIsServed(cfg: Config)
    ensures Does(Terse(cfg), Listed(cfg), StartGet(1, 1, 1, true, 0), Served(cfg))
  {
    RecordCoalesces(cfg);
    hide LookedUp, Published;
  }

  lemma EvidenceMoved(cfg: Config)
    ensures EvidenceOf(Run(cfg, TWO_ROUNDS[..2]), 1) != VersionAt(cfg, TWO_ROUNDS, 1, 1).evidence
  {
    TwoRoundsState(cfg);
    hide Run, HeaderOf;
    if EvidenceOf(Run(cfg, TWO_ROUNDS[..2]), 1) == VersionAt(cfg, TWO_ROUNDS, 1, 1).evidence {
      SameEvidenceSameBlock(cfg, TWO_ROUNDS, 1, 2, 1);
      assert false;
    }
  }

  lemma OvertakenHistory(cfg: Config)
    ensures History(Terse(cfg), Worlds(cfg), OVERTAKEN)
  {
    RoundsAreTracked(Terse(cfg));
    FirstBuilds(cfg);
    FirstPublishes(cfg);
    SecondIsServed(cfg);
    hide Does, Terse, Listed, Served;
  }

  /**
   In the history above the last get hits: it hands out, beside a version that has round 0 only, a record of another
   evidence revision that shows round 1.
   */
  lemma CoalescedHitMayBeNewer(cfg: Config)
    ensures History(Terse(cfg), Worlds(cfg), OVERTAKEN) && OVERTAKEN[4] == StartGet(1, 1, 1, true, 0)
    ensures Worlds(cfg)[4] == Listed(cfg)
    ensures var w := Listed(cfg);
      && w.run == TWO_ROUNDS && LookedUp(Terse(cfg), w, 1, 1, true, 0).found == Hit(0) && 0 in w.cache.table
      && w.cache.table[0].evidence != VersionAt(cfg, w.run, 1, 1).evidence
      && 1 in Run(cfg, w.run[..1]).archive
      && !(RoundsShown(w.cache.table[0].report) <= Run(cfg, w.run[..1]).archive[1].rounds.Keys)
  {
    OvertakenHistory(cfg);
    RecordCoalesces(cfg);
    RecordIsSmall(cfg);
    EvidenceMoved(cfg);
    CoalescedRecordMayBeNewer(cfg);
    TwoRoundsState(cfg);
    hide Run, VersionAt, ReportAt, History, LookedUp, NewerRecord, RoundsShown, EvidenceOf;
  }
}
