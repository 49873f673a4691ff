/** What a report says of a height and of each of its rounds, in terms of the run and of the evidence retained. */
module HeaderLaws {
  import opened Common
  import opened TrackerTypes
  import opened Archive
  import opened Tracker
  import opened TrackerRuns
  import opened Oracle
  import opened Snapshot
  import opened SnapshotLaws
  import Admission
  import Conservation
  import Detector
  import Incidents
  import CompactLaws

  // ---------- the newest height ----------

  /** The newest height is the greatest retained one; without any there is none. */
  ghost predicate NewestKept(t: TrackerState)
  {
    if t.archive.Keys == {} then t.archiveLatestHeight == 0 else t.archiveLatestHeight in t.archive.Keys
  }

  ghost predicate SameHeights(t: TrackerState, u: TrackerState)
  {
    u.archive.Keys == t.archive.Keys && u.archiveLatestHeight == t.archiveLatestHeight
  }

  lemma SameHeightsNewest(t: TrackerState, u: TrackerState)
    requires NewestKept(t) && SameHeights(t, u)
    ensures NewestKept(u)
  {
  }

  lemma OnlyOne(s: set<int>, m: int)
    requires m in s && forall y :: y in s ==> y == m
    ensures |s| == 1
  {
    forall y ensures y in s <==> y in {m} { }
    assert s == {m};
  }

  /** One height more, and perhaps the least one less, where that leaves one. */
  lemma GreatestStays(before: set<int>, h: int, least: int, latest: int)
    requires before == {} ==> latest == 0
    requires before != {} ==> latest in before && forall x :: x in before ==> x <= latest
    requires h > 0 && least in before + {h} && forall y :: y in before + {h} ==> least <= y
    ensures Max(latest, h) in before + {h}
    ensures |before + {h}| > 1 ==> Max(latest, h) in before + {h} - {least}
  {
    var m := Max(latest, h);
    assert forall y :: y in before + {h} ==> y <= m;
    if forall y :: y in before + {h} ==> y == m { OnlyOne(before + {h}, m); }
  }

  lemma EvictedHeights(g: TrackerState)
    requires g.archive.Keys != {}
    ensures var w := EvictOldestHeight(g);
      w.archive.Keys == g.archive.Keys - {SetMin(g.archive.Keys)} && w.archiveLatestHeight == g.archiveLatestHeight
  {
  }

  lemma CreatedHeights(t: TrackerState, h: int, now: int)
    requires h > 0 && h > t.archiveEvictedThrough && h !in t.archive
    ensures var u, all := CreateHeight(t, h, now), t.archive.Keys + {h};
      && u.archiveLatestHeight == Max(t.archiveLatestHeight, h)
      && u.archive.Keys == if |all| > t.cfg.historySize then all - {SetMin(all)} else all
  {
    var g := InsertHeight(t, h, now);
    InsertedHeights(t, h, now);
    assert |g.archive| == |g.archive.Keys| && g.archiveLatestHeight == Max(t.archiveLatestHeight, h) && g.cfg == t.cfg;
    EvictedHeights(g);
    hide InsertHeight, EvictOldestHeight;
  }

  lemma HeightsBelowLatest(t: TrackerState)
    requires ArchiveOk(t)
    ensures t.cfg.historySize >= 1 && forall x :: x in t.archive.Keys ==> x <= t.archiveLatestHeight
  {
  }

  lemma CreateKeepsNewest(t: TrackerState, h: int, now: int)
    requires ArchiveOk(t) && NewestKept(t)
    ensures NewestKept(CreateHeight(t, h, now))
  {
    HeightsBelowLatest(t);
    hide ArchiveOk;
    if !(h <= 0 || h <= t.archiveEvictedThrough || h in t.archive) {
      var all := t.archive.Keys + {h};
      CreatedHeights(t, h, now);
      GreatestStays(t.archive.Keys, h, SetMin(all), t.archiveLatestHeight);
      hide CreateHeight;
    }
  }

  lemma EnsureRoundHeights(u: TrackerState, h: int, r: int, now: int)
    requires h in u.archive
    ensures SameHeights(u, EnsureRound(u, h, r, now))
  {
  }

  lemma LocateKeepsNewest(t: TrackerState, h: int, r: int, now: int)
    requires ArchiveOk(t) && NewestKept(t)
    ensures NewestKept(Locate(t, h, r, now))
  {
    var u := EnsureHeight(t, h, now);
    CreateKeepsNewest(t, h, now);
    hide ArchiveOk, NewestKept, CreateHeight, EnsureRound;
    if h in u.archive {
      EnsureRoundHeights(u, h, r, now);
      SameHeightsNewest(u, EnsureRound(u, h, r, now));
    }
  }

  lemma PutHeights(u: TrackerState, h: int, c: ArchivedHeight)
    requires h in u.archive
    ensures SameHeights(u, u.(archive := u.archive[h := c]))
  {
    assert u.archive[h := c].Keys == u.archive.Keys;
  }

  lemma VoteKeepsNewest(t: TrackerState, v: VoteEvent, now: int)
    requires ArchiveOk(t) && NewestKept(t)
    ensures NewestKept(ObserveVote(t, v, now))
  {
    hide ArchiveOk, NewestKept, Locate, RecordVote;
    if ValidVote(v) {
      var u := Locate(t, v.height, v.round, now);
      LocateKeepsNewest(t, v.height, v.round, now);
      if u.Retained(v.height, v.round) {
        PutHeights(u, v.height, RecordVote(u.archive[v.height], v, now));
        SameHeightsNewest(u, ObserveVote(t, v, now));
      }
    }
  }

  lemma RoundKeepsNewest(t: TrackerState, h: int, r: int, proposer: string, now: int)
    requires ArchiveOk(t) && NewestKept(t)
    ensures NewestKept(ObserveRound(t, h, r, proposer, now))
  {
    hide ArchiveOk, NewestKept, Locate, Propose;
    var u := Locate(t, h, r, now);
    LocateKeepsNewest(t, h, r, now);
    if u.Retained(h, r) {
      PutHeights(u, h, Propose(u.archive[h], r, proposer, now));
      SameHeightsNewest(u, u.(archive := u.archive[h := Propose(u.archive[h], r, proposer, now)]));
    }
  }

  lemma CommitKeepsNewest(t: TrackerState, h: int, hash: string, now: int)
    requires ArchiveOk(t) && NewestKept(t)
    ensures NewestKept(ArchiveCommit(t, h, hash, now))
  {
    var u := CreateHeight(t, h, now);
    CreateKeepsNewest(t, h, now);
    hide ArchiveOk, NewestKept, CreateHeight, CommitBlock;
    if h in u.archive {
      PutHeights(u, h, CommitBlock(u.archive[h], hash, now));
      SameHeightsNewest(u, u.(archive := u.archive[h := CommitBlock(u.archive[h], hash, now)]));
    }
  }

  lemma SeedHeights(t: TrackerState, vs: Listing)
    ensures SameHeights(t, SetValidators(t, vs))
  {
    hide Backfill, RosterOf, TotalOf, Detector.Reweigh;
    assert SetValidators(t, vs).archive.Keys == t.archive.Keys;
  }

  lemma ResolveHeights(t: TrackerState, h: int, hash: string, now: int)
    ensures SameHeights(ArchiveCommit(t, h, hash, now), ResolveCommit(t, h, hash, now))
  {
    hide ArchiveCommit, ResolvedReports;
  }

  lemma IngestHeights(t: TrackerState, v: VoteEvent, now: int)
    ensures SameHeights(ObserveVote(t, v, now), IngestVote(t, v, now).tracker)
  {
    hide ObserveVote, Detector.ReportOf, Fires, Detector.AddVote, HasVote;
  }

  lemma MarkHeights(t: TrackerState, h: int, r: int)
    ensures SameHeights(t, MarkRoundAdvanced(t, h, r))
  {
  }

  lemma StepKeepsNewest(t: TrackerState, e: Timed)
    requires ArchiveOk(t) && NewestKept(t)
    ensures NewestKept(Step(t, e))
  {
    hide ArchiveOk, NewestKept, SameHeights, SetValidators, ObserveRound, ObserveVote, IngestVote, MarkRoundAdvanced,
      ResolveCommit;
    match e.op
    case OpSetValidators(vs) =>
      SeedHeights(t, vs);
      SameHeightsNewest(t, Step(t, e));
    case OpObserveRound(h, r, proposer) => RoundKeepsNewest(t, h, r, proposer, e.now);
    case OpObserveVote(v) => VoteKeepsNewest(t, v, e.now);
    case OpIngestVote(v) =>
      VoteKeepsNewest(t, v, e.now);
      IngestHeights(t, v, e.now);
      SameHeightsNewest(ObserveVote(t, v, e.now), Step(t, e));
    case OpMarkRoundAdvanced(h, r) =>
      MarkHeights(t, h, r);
      SameHeightsNewest(t, Step(t, e));
    case OpResolveCommit(h, hash) =>
      CommitKeepsNewest(t, h, hash, e.now);
      ResolveHeights(t, h, hash, e.now);
      SameHeightsNewest(ArchiveCommit(t, h, hash, e.now), Step(t, e));
  }

  /** The greatest height committed in the run, or 0. */
  function GreatestCommit(run: seq<Timed>): int
  {
    if run == [] then 0
    else
      var before, last := GreatestCommit(run[..|run| - 1]), run[|run| - 1].op;
      if last.OpResolveCommit? then Max(before, last.height) else before
  }

  lemma StepCommits(t: TrackerState, e: Timed)
    requires ArchiveOk(t)
    ensures Step(t, e).committedHeight
      == if e.op.OpResolveCommit? then Max(t.committedHeight, e.op.height) else t.committedHeight
  {
    hide ArchiveOk, ObserveRound, ObserveVote, ResolveCommit, IngestVote;
    match e.op
    case OpSetValidators(vs) =>
    case OpObserveRound(h, r, proposer) => ObserveRoundPrunes(t, h, r, proposer, e.now);
    case OpObserveVote(v) => ObserveVotePrunes(t, v, e.now);
    case OpIngestVote(v) =>
      ObserveVotePrunes(t, v, e.now);
      Conservation.IngestKeepsArchive(t, v, e.now);
    case OpMarkRoundAdvanced(h, r) =>
    case OpResolveCommit(h, hash) => CommitMoves(t, h, hash, e.now);
  }

  lemma CommitMoves(t: TrackerState, h: int, hash: string, now: int)
    requires ArchiveOk(t)
    ensures ResolveCommit(t, h, hash, now).committedHeight == Max(t.committedHeight, h)
  {
    Incidents.CommitResolves(t, h, hash, now);
    hide ArchiveOk, ResolveCommit, ResolvedReports, CommitArchive, Incidents.Resolves;
  }

  lemma {:induction false} RunHeights(cfg: Config, run: seq<Timed>)
    ensures NewestKept(Run(cfg, run)) && Run(cfg, run).committedHeight == GreatestCommit(run)
  {
    hide Step, ArchiveOk, NewestKept;
    if run == [] {
      assert NewestKept(NewTracker(cfg)) by { NewIsNewest(cfg); }
    } else {
      var front, e := run[..|run| - 1], run[|run| - 1];
      RunHeights(cfg, front);
      RunOk(cfg, front);
      StepKeepsNewest(Run(cfg, front), e);
      StepCommits(Run(cfg, front), e);
    }
  }

  lemma NewIsNewest(cfg: Config)
    ensures NewestKept(NewTracker(cfg))
  {
  }

  lemma AgesKeepConfig(t: TrackerState, u: TrackerState)
    requires Later(t, u)
    ensures u.cfg == t.cfg
  {
    hide Admissible, ArchiveOk;
  }

  /** Every tracker keeps the configuration it was made with; a history size below 1 counts as 32. */
  lemma ConfigStays(cfg: Config, run: seq<Timed>)
    ensures Run(cfg, run).cfg == cfg.(historySize := if cfg.historySize < 1 then 32 else cfg.historySize)
  {
    NewTrackerOk(cfg);
    RunIsLater(NewTracker(cfg), run);
    AgesKeepConfig(NewTracker(cfg), Run(cfg, run));
    hide Later, After;
  }

  // ---------- the status of a height ----------

  /**
   The status a report gives a height: committed exactly if its commit was seen, else passed exactly if a greater height
   is retained or one at least as great was committed, else live; without evidence, evicted exactly up to the eviction
   watermark, else not observed. A height is found exactly if it is retained.
   */
  lemma StatusExactly(cfg: Config, run: seq<Timed>, h: int)
    ensures var t, status := Run(cfg, run), HeaderOf(Run(cfg, run), h).status;
      && (HeaderOf(t, h).found <==> h in t.archive)
      && (status == Committed <==> h in t.archive && SeenCommit(run, h))
      && (status == Passed <==>
            && h in t.archive && !SeenCommit(run, h)
            && (GreatestCommit(run) >= h || exists x :: x in t.archive && x > h))
      && (status == Live <==>
            && h in t.archive && !SeenCommit(run, h) && GreatestCommit(run) < h
            && forall x :: x in t.archive ==> x <= h)
      && (status == Snapshot.Evicted <==> h !in t.archive && 0 < h <= t.archiveEvictedThrough)
      && (status == NotObserved <==> h !in t.archive && (h <= 0 || h > t.archiveEvictedThrough))
  {
    var t := Run(cfg, run);
    RunHeights(cfg, run);
    RunRefinesCommits(cfg, run);
    RunOk(cfg, run);
    HeightsBelowLatest(t);
    CommitFlag(run, t, h);
    StatusCases(t, h);
    hide *;
  }

  lemma CommitFlag(run: seq<Timed>, t: TrackerState, h: int)
    requires RefinesCommits(run, t)
    ensures h in t.archive ==> t.archive[h].committed == SeenCommit(run, h)
  {
    hide SeenCommit, SeenCanonical;
  }

  lemma StatusCases(t: TrackerState, h: int)
    requires NewestKept(t) && forall x :: x in t.archive.Keys ==> x <= t.archiveLatestHeight
    ensures var header := HeaderOf(t, h);
      && (header.found <==> h in t.archive)
      && (h !in t.archive
        ==> header.status == if 0 < h <= t.archiveEvictedThrough then Snapshot.Evicted else NotObserved)
      && (h in t.archive ==> header.status == if t.archive[h].committed then Committed
        else if t.committedHeight >= h || exists x :: x in t.archive && x > h then Passed else Live)
  {
    hide RetainedHeights, CoverageOf;
  }

  /** A height that was retained at some moment and is not any more is reported as evicted from then on. */
  lemma LostIsEvicted(cfg: Config, run: seq<Timed>, more: seq<Timed>, h: int)
    requires h in Run(cfg, run).archive && h !in Run(cfg, run + more).archive
    ensures HeaderOf(Run(cfg, run + more), h).status == Snapshot.Evicted
  {
    PrefixIsLater(cfg, run, more);
    RunOk(cfg, run);
    LostBelowWatermark(Run(cfg, run), Run(cfg, run + more), h);
    StatusExactly(cfg, run + more, h);
    hide Run, HeaderOf;
  }

  lemma LostBelowWatermark(t: TrackerState, u: TrackerState, h: int)
    requires ArchiveOk(t) && Later(t, u) && h in t.archive && h !in u.archive
    ensures 0 < h <= u.archiveEvictedThrough
  {
  }

  // ---------- the rounds of a report ----------

  /** A phase of one validator's row: what its ballot lists, with its marks. */
  ghost predicate ShowsVote(vote: Option<PhaseVote>, view: VoteView)
  {
    && (view.observed <==> vote.Some?)
    && (vote.Some? ==>
          && view.hashes == vote.value.hashes && view.conflicting == vote.value.conflicting
          && view.truncated == vote.value.truncated)
    && (vote.None? ==> view.hashes == [] && !view.conflicting && !view.truncated)
  }

  ghost predicate ShowsValidator(rd: ArchivedRound, row: ValidatorView)
  {
    var a := row.address;
    && (a in rd.roster || a in rd.votes)
    && (row.known <==> a in rd.roster)
    && (a in rd.roster ==> row.power == rd.roster[a].power && row.moniker == rd.roster[a].moniker)
    && (a !in rd.roster ==> row.power == 0 && row.moniker == "")
    && ShowsVote(rd.Vote(a, Prevote), row.prevote) && ShowsVote(rd.Vote(a, Precommit), row.precommit)
  }

  /** The roster's powers; a negative one counts as none. */
  ghost function RosterPower(m: Roster): string -> int
  {
    (a: string) => if a in m && m[a].power > 0 then m[a].power else 0
  }

  /** A round as the report shows it, apart from its two phases. */
  ghost predicate ShowsRound(rd: ArchivedRound, view: RoundView)
  {
    && view.round == rd.round && view.proposer == rd.proposer && view.truncated == rd.truncated
    && view.firstSeen == rd.firstSeen && view.lastSeen == rd.lastSeen
    && (view.rosterComplete <==> |rd.roster| > 0 && forall a :: a in rd.votes ==> a in rd.roster)
    && view.totalPower == Sum(rd.roster.Keys, RosterPower(rd.roster))
    && ListsValidators(rd, view.validators)
  }

  /** One row for each validator of the roster and each voter, in address order. */
  ghost predicate ListsValidators(rd: ArchivedRound, rows: seq<ValidatorView>)
  {
    && (forall i :: 0 <= i < |rows| ==> ShowsValidator(rd, rows[i]))
    && (forall a :: a in rd.roster || a in rd.votes ==> exists i :: 0 <= i < |rows| && rows[i].address == a)
    && (forall i, j :: 0 <= i < j < |rows| ==> StrLess(rows[i].address, rows[j].address))
  }

  lemma OnlyRosterWeighs(rd: ArchivedRound)
    ensures Sum(Addresses(rd), KnownPower(rd)) == Sum(rd.roster.Keys, RosterPower(rd.roster))
  {
    var strangers := Addresses(rd) - rd.roster.Keys;
    assert Addresses(rd) == rd.roster.Keys + strangers;
    forall a | a in strangers ensures KnownPower(rd)(a) == 0 { }
    forall a ensures KnownPower(rd)(a) == RosterPower(rd.roster)(a) { }
    hide KnownPower, RosterPower, Addresses;
    SumUnion(rd.roster.Keys, strangers, KnownPower(rd));
    SumZero(strangers, KnownPower(rd));
    SumAgree(rd.roster.Keys, KnownPower(rd), RosterPower(rd.roster));
  }

  lemma RowShowsValidator(rd: ArchivedRound, a: string)
    requires a in Addresses(rd)
    ensures ShowsValidator(rd, Snapshot.RowOf(rd, a)) && Snapshot.RowOf(rd, a).address == a
  {
  }

  lemma RowsAscend(rd: ArchivedRound)
    ensures var rows := RowsOf(rd);
      && AddressSet(rows) == Addresses(rd)
      && (forall i :: 0 <= i < |rows| ==> rows[i] == Snapshot.RowOf(rd, rows[i].address))
      && (forall i, j :: 0 <= i < j < |rows| ==> StrLess(rows[i].address, rows[j].address))
  {
    RowsOfFacts(rd);
    var rows := RowsOf(rd);
    assert forall i, j :: 0 <= i < j < |rows| ==> RowLess(rows[i], rows[j]);
    hide RowsOf, Snapshot.RowOf;
  }

  lemma RowsFromAddresses(rd: ArchivedRound, rows: seq<ValidatorView>)
    requires forall i :: 0 <= i < |rows| ==> rows[i] == Snapshot.RowOf(rd, rows[i].address)
    requires AddressSet(rows) == Addresses(rd)
    ensures forall i :: 0 <= i < |rows| ==> ShowsValidator(rd, rows[i])
  {
    hide Snapshot.RowOf, ShowsValidator, Addresses;
    forall i | 0 <= i < |rows| ensures ShowsValidator(rd, rows[i]) {
      assert rows[i].address in AddressSet(rows);
      RowShowsValidator(rd, rows[i].address);
    }
  }

  lemma AddressesHaveRows(rd: ArchivedRound, rows: seq<ValidatorView>)
    requires AddressSet(rows) == Addresses(rd)
    ensures forall a :: a in rd.roster || a in rd.votes ==> exists i :: 0 <= i < |rows| && rows[i].address == a
  {
    forall a | a in rd.roster || a in rd.votes ensures exists i :: 0 <= i < |rows| && rows[i].address == a {
      assert a in AddressSet(rows);
    }
  }

  lemma RowsShowValidators(rd: ArchivedRound)
    ensures ListsValidators(rd, RowsOf(rd))
  {
    RowsAscend(rd);
    hide RowsOf, ShowsValidator, Snapshot.RowOf, Addresses, StrLess, AddressSet;
    RowsFromAddresses(rd, RowsOf(rd));
    AddressesHaveRows(rd, RowsOf(rd));
  }

  lemma RoundIsShown(rd: ArchivedRound, canonical: string, committed: bool)
    ensures ShowsRound(rd, RoundViewOf(rd, canonical, committed))
  {
    RowsShowValidators(rd);
    OnlyRosterWeighs(rd);
    assert |rd.roster| == 0 <==> rd.roster == map[];
    hide RowsOf, PhaseOf, Sum, ListsValidators, KnownPower, RosterPower, Addresses;
  }

  // ---------- the report of a height ----------

  ghost predicate SomeMarked(b: ArchivedHeight) { exists n :: n in b.rounds && b.rounds[n].truncated }

  /** Every round has a roster, and its voters are all on it. */
  ghost predicate KnowsAllVoters(b: ArchivedHeight)
  {
    forall n :: n in b.rounds ==>
      |b.rounds[n].roster| > 0 && forall a :: a in b.rounds[n].votes ==> a in b.rounds[n].roster
  }

  /** The report of a retained height, apart from its status. */
  ghost predicate ShowsBlock(t: TrackerState, b: ArchivedHeight, r: BlockView)
  {
    && r.found && r.height == b.height && r.committed == b.committed && r.canonicalHash == b.canonicalHash
    && r.seen == Some((b.firstSeen, b.lastSeen))
    && (r.truncated <==> b.roundsEvicted > 0 || SomeMarked(b))
    && r.coverage.firstLast == (if b.roundsObserved > 0 then Some((b.firstRound, b.lastRound)) else None)
    && r.coverage.observed == b.roundsObserved && r.coverage.evicted == b.roundsEvicted
    && r.coverage.missing == MissingRounds(b)
    && (r.coverage.rosterComplete <==> |b.rounds| > 0 && KnowsAllVoters(b))
    && ListsRounds(b, r.rounds) && ShowsRetention(t, r)
  }

  /** The catalogue part of a report: the limit and the retained heights in order. */
  ghost predicate ShowsRetention(t: TrackerState, r: BlockView)
  {
    && r.heightLimit == t.cfg.historySize
    && (forall h :: h in r.retained <==> h in t.archive)
    && (forall i, j :: 0 <= i < j < |r.retained| ==> r.retained[i] < r.retained[j])
    && r.earliest == (if r.retained == [] then 0 else r.retained[0])
    && r.latest == (if r.retained == [] then 0 else r.retained[|r.retained| - 1])
  }

  lemma RetainedListing(t: TrackerState)
    ensures var retained := RetainedHeights(t);
      && (forall h :: h in retained <==> h in t.archive)
      && (forall i, j :: 0 <= i < j < |retained| ==> retained[i] < retained[j])
  {
    var retained := RetainedHeights(t);
    assert forall x :: x in retained <==> x in Elements(retained);
    assert forall i, j :: 0 <= i < j < |retained| ==> IntLess(retained[i], retained[j]);
  }

  lemma HeaderShowsRetention(t: TrackerState, h: int)
    ensures ShowsRetention(t, HeaderOf(t, h))
  {
    RetainedListing(t);
    hide RetainedHeights, CoverageOf;
  }

  /** The rounds of the full report are the views of the retained ones, in order. */
  ghost predicate ListsRounds(b: ArchivedHeight, rounds: seq<RoundView>)
  {
    && (forall i ::
      0 <= i < |rounds| ==> rounds[i].round in b.rounds && ShowsRound(b.rounds[rounds[i].round], rounds[i]))
    && (forall n :: n in b.rounds ==> exists i :: 0 <= i < |rounds| && rounds[i].round == n)
    && (forall i, j :: 0 <= i < j < |rounds| ==> rounds[i].round < rounds[j].round)
  }

  lemma ViewIsShown(b: ArchivedHeight, view: RoundView)
    requires Filed(b) && view in RoundViews(b, b.rounds.Keys)
    ensures view.round in b.rounds && ShowsRound(b.rounds[view.round], view)
  {
    hide RoundViewOf, ShowsRound;
    var r :| r in b.rounds && view == RoundViewOf(b.rounds[r], b.canonicalHash, b.committed);
    RoundIsShown(b.rounds[r], b.canonicalHash, b.committed);
    ShownUnderItsNumber(b.rounds[r], view);
  }

  lemma ShownUnderItsNumber(rd: ArchivedRound, view: RoundView)
    requires ShowsRound(rd, view)
    ensures view.round == rd.round
  {
    hide ListsValidators;
  }

  lemma ListedViews(t: TrackerState, h: int)
    requires h in t.archive && Filed(t.archive[h])
    ensures forall i :: 0 <= i < |FullReport(t, h).rounds| ==>
      FullReport(t, h).rounds[i] in RoundViews(t.archive[h], t.archive[h].rounds.Keys)
  {
    var b, rounds := t.archive[h], FullReport(t, h).rounds;
    RoundsOrdered(b, b.rounds.Keys);
    assert Elements(rounds) == RoundViews(b, b.rounds.Keys) by { hide HeaderOf, RoundViews; }
    hide FullReport, RoundViews;
    forall i | 0 <= i < |rounds| ensures rounds[i] in RoundViews(b, b.rounds.Keys) {
      assert rounds[i] in Elements(rounds);
    }
  }

  lemma ListsFrom(b: ArchivedHeight, rounds: seq<RoundView>)
    requires Filed(b) && CompactLaws.InOrder(rounds)
    requires forall i :: 0 <= i < |rounds| ==> rounds[i] in RoundViews(b, b.rounds.Keys)
    requires forall n :: CompactLaws.Shows(rounds, n) <==> n in b.rounds
    ensures ListsRounds(b, rounds)
  {
    hide ShowsRound, RoundViews, Filed;
    forall i | 0 <= i < |rounds|
      ensures rounds[i].round in b.rounds && ShowsRound(b.rounds[rounds[i].round], rounds[i]) {
      ViewIsShown(b, rounds[i]);
    }
    forall n | n in b.rounds ensures CompactLaws.Shows(rounds, n) { }
  }

  lemma RoundsAreListed(t: TrackerState, h: int)
    requires h in t.archive && Filed(t.archive[h])
    ensures ListsRounds(t.archive[h], FullReport(t, h).rounds)
  {
    ListedViews(t, h);
    CompactLaws.FullIsInOrder(t, h);
    ListsFrom(t.archive[h], FullReport(t, h).rounds);
  }

  lemma HeaderFields(t: TrackerState, h: int)
    requires h in t.archive
    ensures var b, r := t.archive[h], HeaderOf(t, h);
      && r.found && r.height == h && r.committed == b.committed && r.canonicalHash == b.canonicalHash
      && r.seen == Some((b.firstSeen, b.lastSeen)) && r.truncated == (b.roundsEvicted > 0)
      && r.coverage.firstLast == (if b.roundsObserved > 0 then Some((b.firstRound, b.lastRound)) else None)
      && r.coverage.observed == b.roundsObserved && r.coverage.evicted == b.roundsEvicted
      && r.coverage.missing == MissingRounds(b)
  {
    hide RetainedHeights;
  }

  lemma CompleteMeans(b: ArchivedHeight)
    ensures AllComplete(b, b.rounds.Keys) <==> KnowsAllVoters(b)
    ensures SomeTruncated(b, b.rounds.Keys) <==> SomeMarked(b)
  {
    RostersAreNonempty(b);
  }

  lemma FullFields(t: TrackerState, h: int)
    requires h in t.archive && Filed(t.archive[h])
    ensures var b, header, r := t.archive[h], HeaderOf(t, h), FullReport(t, h);
      && r == header.(rounds := r.rounds, truncated := r.truncated, coverage := r.coverage)
      && r.coverage == header.coverage.(rosterComplete := r.coverage.rosterComplete)
      && (r.truncated <==> header.truncated || SomeMarked(b))
      && (r.coverage.rosterComplete <==> |b.rounds| > 0 && KnowsAllVoters(b))
  {
    RoundsOrdered(t.archive[h], t.archive[h].rounds.Keys);
    CompleteMeans(t.archive[h]);
    hide HeaderOf, RoundViews, AllComplete, SomeTruncated, KnowsAllVoters, SomeMarked;
  }

  lemma BlockIsShown(t: TrackerState, h: int)
    requires h in t.archive && Filed(t.archive[h]) && t.archive[h].height == h
    ensures ShowsBlock(t, t.archive[h], FullReport(t, h))
  {
    RoundsAreListed(t, h);
    HeaderShowsRetention(t, h);
    HeaderFields(t, h);
    FullFields(t, h);
    RetentionKept(t, HeaderOf(t, h), FullReport(t, h));
    hide FullReport, HeaderOf, ListsRounds, MissingRounds, ShowsRetention, Filed, SomeMarked, KnowsAllVoters;
  }

  /**
   The full report of a retained height of a reachable tracker shows its block: commit, coverage, timestamps, every
   retained round in order with its proposer, roster, total power and one row per validator, and the retained heights.
   */
  lemma ReportShowsBlock(cfg: Config, run: seq<Timed>, h: int)
    requires h in Run(cfg, run).archive
    ensures Filed(Run(cfg, run).archive[h])
    ensures ShowsBlock(Run(cfg, run), Run(cfg, run).archive[h], FullReport(Run(cfg, run), h))
  {
    RunOk(cfg, run);
    hide *;
    BlockAt(Run(cfg, run), h);
    ArchiveIsFiled(Run(cfg, run), h);
    BlockIsShown(Run(cfg, run), h);
  }

  lemma RostersAreNonempty(b: ArchivedHeight)
    ensures forall n :: n in b.rounds ==> (b.rounds[n].roster != map[] <==> |b.rounds[n].roster| > 0)
    ensures forall n :: n in b.rounds ==>
      (b.rounds[n].votes.Keys <= b.rounds[n].roster.Keys <==>
        forall a :: a in b.rounds[n].votes ==> a in b.rounds[n].roster)
  {
  }

  lemma RetentionKept(t: TrackerState, header: BlockView, r: BlockView)
    requires ShowsRetention(t, header)
    requires r.heightLimit == header.heightLimit && r.retained == header.retained && r.earliest == header.earliest
      && r.latest == header.latest
    ensures ShowsRetention(t, r)
  {
  }

  /** The groups of a phase are listed heaviest first, equal ones by hash. */
  lemma GroupsHeaviestFirst(rows: seq<ValidatorView>, kind: VoteType, canonical: string, committed: bool, i: nat,
        j: nat)
    requires i < j < |PhaseOf(rows, kind, canonical, committed).groups|
    ensures var groups := PhaseOf(rows, kind, canonical, committed).groups;
      groups[i].power > groups[j].power
        || (groups[i].power == groups[j].power && StrLess(groups[i].hash, groups[j].hash))
  {
    SumPhaseNamed(rows, kind, canonical, committed);
    var s := SumPhase(rows, kind, canonical, committed);
    GroupsOrdered(s.groups);
    var groups := PhaseOf(rows, kind, canonical, committed).groups;
    assert Ascending(GroupLess, groups);
    assert GroupLess(groups[i], groups[j]);
  }
}
