/** Coverage arithmetic: what roundsObserved and MissingRounds count, over whole runs. */
module Coverage {
  import opened Common
  import opened TrackerTypes
  import opened Archive
  import opened Tracker
  import opened TrackerRuns
  import opened Oracle
  import opened Detector

  // ---------- what a run offered, admitted and refused ----------

  /** The round at h that a call observes, if the call is well formed. */
  function OfferedRound(op: Op, h: int): Option<int>
  {
    if IsVote(op) && op.v.height == h then Some(op.v.round)
    else if op.OpObserveRound? && IsRound(op, h, op.round) then Some(op.round)
    else None
  }

  /** Every round of h ever observed. */
  function Offered(run: seq<Timed>, h: int): set<int>
  {
    if run == [] then {} else
      var last := OfferedRound(run[|run| - 1].op, h);
      Offered(run[..|run| - 1], h) + if last.Some? then {last.value} else {}
  }

  /** The rounds of h that were observed while archiveRoundLocked would still create them. */
  ghost function Admitted(cfg: Config, run: seq<Timed>, h: int): set<int>
  {
    if run == [] then {} else
      var last, t := OfferedRound(run[|run| - 1].op, h), Run(cfg, run[..|run| - 1]);
      Admitted(cfg, run[..|run| - 1], h) + if last.Some? && Admissible(t, h, last.value) then {last.value} else {}
  }

  /**
   The rounds of h that were observed only when archiveRoundLocked no longer creates them: after the
   commit of the height, or at or below the eviction watermark.
   */
  ghost function Refused(cfg: Config, run: seq<Timed>, h: int): set<int>
  {
    if run == [] then {} else
      var before := run[..|run| - 1];
      var last, t := OfferedRound(run[|run| - 1].op, h), Run(cfg, before);
      Refused(cfg, before, h)
        + if last.Some? && !Admissible(t, h, last.value) && last.value !in Admitted(cfg, before, h) then {last.value}
          else {}
  }

  // ---------- the counters of one block ----------

  datatype Tally = Tally(rounds: set<int>, observed: int, evictedThrough: int, first: int, last: int)

  const NO_ROUNDS := Tally({}, 0, -1, 0, 0)

  function CountIn(b: ArchivedHeight): Tally
  {
    Tally(b.rounds.Keys, b.roundsObserved, b.evictedThrough, b.firstRound, b.lastRound)
  }

  ghost function CountAt(t: TrackerState, h: int): Tally { if h in t.archive then CountIn(t.archive[h]) else NO_ROUNDS }

  ghost function Admit(c: Tally, r: int): Tally
  {
    var rounds := c.rounds + {r};
    var first := if c.observed == 0 || r < c.first then r else c.first;
    var last := if c.observed == 0 || r > c.last then r else c.last;
    if |rounds| > ROUND_LIMIT then Tally(rounds - {SetMin(rounds)}, c.observed + 1, SetMin(rounds), first, last)
    else Tally(rounds, c.observed + 1, c.evictedThrough, first, last)
  }

  /** The counters describe the set of admitted rounds. */
  ghost predicate Counts(c: Tally, admitted: set<int>)
  {
    && c.observed == |admitted|
    && (forall r :: r in c.rounds <==> r in admitted && r > c.evictedThrough)
    && (forall r :: r in admitted ==> 0 <= r && c.first <= r <= c.last)
    && (admitted != {} ==> c.first in admitted && c.last in admitted)
    && (c.evictedThrough >= 0 ==> c.rounds != {})
  }

  lemma GrownCounts(c: Tally, admitted: set<int>, r: int)
    requires Counts(c, admitted) && r >= 0 && r > c.evictedThrough && r !in c.rounds
    ensures var first := if c.observed == 0 || r < c.first then r else c.first;
      var last := if c.observed == 0 || r > c.last then r else c.last;
      Counts(Tally(c.rounds + {r}, c.observed + 1, c.evictedThrough, first, last), admitted + {r})
  {
    assert |admitted + {r}| == |admitted| + 1;
  }

  /** Evicting the least of several rounds moves the watermark to it. */
  lemma EvictedCounts(c: Tally, admitted: set<int>, oldest: int)
    requires Counts(c, admitted) && oldest in c.rounds && (forall x :: x in c.rounds ==> oldest <= x) && |c.rounds| > 1
    ensures Counts(c.(rounds := c.rounds - {oldest}, evictedThrough := oldest), admitted)
  {
    assert |c.rounds - {oldest}| == |c.rounds| - 1;
  }

  lemma AdmitCounts(c: Tally, admitted: set<int>, r: int)
    requires Counts(c, admitted) && r >= 0 && r > c.evictedThrough && r !in c.rounds
    ensures Counts(Admit(c, r), admitted + {r})
  {
    GrownCounts(c, admitted, r);
    hide Counts;
    var rounds := c.rounds + {r};
    if |rounds| > ROUND_LIMIT {
      var first := if c.observed == 0 || r < c.first then r else c.first;
      var last := if c.observed == 0 || r > c.last then r else c.last;
      EvictedCounts(Tally(rounds, c.observed + 1, c.evictedThrough, first, last), admitted + {r}, SetMin(rounds));
    }
  }

  // ---------- steps ----------

  lemma InsertIsAdmit(b: ArchivedHeight, r: int, roster: Roster, now: int)
    requires r !in b.rounds
    ensures var g := InsertRound(b, r, roster, now);
      CountIn(if |g.rounds| > ROUND_LIMIT then EvictOldestRound(g) else g) == Admit(CountIn(b), r)
  {
    var g := InsertRound(b, r, roster, now);
    assert g.rounds.Keys == b.rounds.Keys + {r};
    assert |g.rounds| == |g.rounds.Keys|;
    if |g.rounds| > ROUND_LIMIT {
      assert EvictOldestRound(g).rounds.Keys == g.rounds.Keys - {SetMin(g.rounds.Keys)};
    }
  }

  lemma EnsureRoundCounts(t: TrackerState, h: int, r: int, now: int, x: int)
    requires ArchiveOk(t) && h in t.archive && x in EnsureRound(t, h, r, now).archive
    ensures x in t.archive
    ensures CountAt(EnsureRound(t, h, r, now), x)
      == if x == h && Admissible(t, h, r) then Admit(CountAt(t, x), r) else CountAt(t, x)
  {
    BlockAt(t, h);
    if Admissible(t, h, r) {
      InsertIsAdmit(t.archive[h], r, t.defaultValidators, now);
      EnsureRoundIsPruned(t, h, r, now);
      hide ArchiveOk, BlockOk, EnsureRound, Admit, InsertRound, EvictOldestRound, Admissible;
    } else {
      EnsureNothing(t, h, r, now);
      hide ArchiveOk, BlockOk, EnsureRound, Admit;
    }
  }

  lemma EnsureHeightCounts(t: TrackerState, h: int, r: int, now: int, x: int)
    requires ArchiveOk(t) && x in EnsureHeight(t, h, now).archive
    ensures CountAt(EnsureHeight(t, h, now), x) == CountAt(t, x)
    ensures x == h ==> Admissible(EnsureHeight(t, h, now), h, r) == Admissible(t, h, r)
  {
    EnsureHeightFacts(t, h, now);
    var u := EnsureHeight(t, h, now);
    BlockAt(u, x);
    hide ArchiveOk, BlockOk, OnlyPruned, CatalogueStep, CreateHeight;
    if x !in t.archive { assert u.archive[x] == NewBlock(h, now); }
  }

  lemma LocateCounts(t: TrackerState, h: int, r: int, now: int, x: int)
    requires ArchiveOk(t) && x in Locate(t, h, r, now).archive
    ensures CountAt(Locate(t, h, r, now), x)
      == if x == h && Admissible(t, h, r) then Admit(CountAt(t, x), r) else CountAt(t, x)
  {
    var u := EnsureHeight(t, h, now);
    EnsureHeightFacts(t, h, now);
    hide ArchiveOk, Ages, OnlyPruned, CatalogueStep, SameBlocksBut, EnsureHeight, EnsureRound, Admit, CountAt,
      Admissible;
    if h in u.archive {
      EnsureRoundCounts(u, h, r, now, x);
      EnsureHeightCounts(t, h, r, now, x);
    } else {
      EnsureHeightCounts(t, h, r, now, x);
    }
  }

  lemma TouchCounts(u: TrackerState, h: int, c: ArchivedHeight, x: int)
    requires h in u.archive && CountIn(c) == CountIn(u.archive[h])
    ensures CountAt(u.(archive := u.archive[h := c]), x) == CountAt(u, x)
  {
  }

  lemma ObserveVoteCounts(t: TrackerState, v: VoteEvent, now: int, x: int)
    requires ArchiveOk(t) && ValidVote(v) && x in ObserveVote(t, v, now).archive
    ensures CountAt(ObserveVote(t, v, now), x)
      == if x == v.height && Admissible(t, x, v.round) then Admit(CountAt(t, x), v.round) else CountAt(t, x)
  {
    hide ArchiveOk, Locate, Admit, CountAt, Admissible, RecordInRound, RecordBumps, Appends;
    var u := Locate(t, v.height, v.round, now);
    assert x in u.archive;
    LocateCounts(t, v.height, v.round, now, x);
    if u.Retained(v.height, v.round) {
      RecordKeepsRounds(u.archive[v.height], v, now);
      TouchCounts(u, v.height, RecordVote(u.archive[v.height], v, now), x);
    }
  }

  lemma ObserveRoundCounts(t: TrackerState, e: Timed, h: int, r: int, proposer: string, x: int)
    requires ArchiveOk(t) && e.op == OpObserveRound(h, r, proposer) && IsRound(e.op, h, r)
      && x in ObserveRound(t, h, r, proposer, e.now).archive
    ensures CountAt(ObserveRound(t, h, r, proposer, e.now), x)
      == if x == h && Admissible(t, x, r) then Admit(CountAt(t, x), r) else CountAt(t, x)
  {
    hide ArchiveOk, Locate, Admit, CountAt, Admissible;
    var u := Locate(t, h, r, e.now);
    assert x in u.archive;
    LocateCounts(t, h, r, e.now, x);
    if u.Retained(h, r) {
      ProposeKeepsRounds(u.archive[h], r, proposer, e.now);
      TouchCounts(u, h, Propose(u.archive[h], r, proposer, e.now), x);
    }
  }

  lemma CommitCounts(t: TrackerState, h: int, hash: string, now: int, x: int)
    requires ArchiveOk(t) && x in ArchiveCommit(t, h, hash, now).archive
    ensures CountAt(ArchiveCommit(t, h, hash, now), x) == CountAt(t, x)
  {
    CreateHeightFacts(t, h, now);
    hide ArchiveOk, Ages, OnlyPruned, CatalogueStep, CreateHeight;
    if |hash| <= IDENTITY_LIMIT {
      var u := CreateHeight(t, h, now);
      assert x in u.archive;
      assert CountAt(u, x) == CountAt(t, x);
      if h in u.archive { TouchCounts(u, h, CommitBlock(u.archive[h], hash, now), x); }
    }
  }

  lemma SeedCounts(t: TrackerState, vs: Listing, x: int)
    ensures CountAt(SetValidators(t, vs), x) == CountAt(t, x)
  {
    hide Reweigh, RosterOf, TotalOf;
    if x in t.archive { assert Backfill(t.archive[x], RosterOf(vs)).rounds.Keys == t.archive[x].rounds.Keys; }
  }

  /** A step counts a round exactly when it observes one that is still admissible. */
  lemma StepCounts(t: TrackerState, e: Timed, x: int)
    requires ArchiveOk(t) && x in Step(t, e).archive
    ensures var r := OfferedRound(e.op, x);
      CountAt(Step(t, e), x)
        == if r.Some? && Admissible(t, x, r.value) then Admit(CountAt(t, x), r.value) else CountAt(t, x)
  {
    hide ArchiveOk, SetValidators, ObserveRound, ObserveVote, ArchiveCommit, Admit, Admissible, ReportOf, Fires,
      AddVote, ResolvedReports, CountIn;
    match e.op
    case OpSetValidators(vs) => SeedCounts(t, vs, x);
    case OpObserveRound(h, r, proposer) =>
      if IsRound(e.op, h, r) { ObserveRoundCounts(t, e, h, r, proposer, x); } else { IgnoredRound(t, e); }
    case OpObserveVote(v) =>
      if ValidVote(v) { ObserveVoteCounts(t, v, e.now, x); } else { IgnoredVote(t, v, e.now); }
    case OpIngestVote(v) =>
      if ValidVote(v) { ObserveVoteCounts(t, v, e.now, x); } else { IgnoredVote(t, v, e.now); }
    case OpMarkRoundAdvanced(h, r) =>
    case OpResolveCommit(h, hash) => CommitCounts(t, h, hash, e.now, x);
  }

  lemma IgnoredVote(t: TrackerState, v: VoteEvent, now: int)
    requires !ValidVote(v)
    ensures ObserveVote(t, v, now) == t
  {
  }

  lemma IgnoredRound(t: TrackerState, e: Timed)
    requires e.op.OpObserveRound? && !IsRound(e.op, e.op.height, e.op.round)
    ensures ObserveRound(t, e.op.height, e.op.round, e.op.proposer, e.now) == t
  {
  }

  // ---------- runs ----------

  ghost predicate Covers(cfg: Config, run: seq<Timed>, h: int)
  {
    var t := Run(cfg, run);
    && (h in t.archive ==> Counts(CountIn(t.archive[h]), Admitted(cfg, run, h)))
    && (h !in t.archive && h > t.archiveEvictedThrough && h > 0 ==> Admitted(cfg, run, h) == {})
  }

  lemma NothingCounted()
    ensures Counts(NO_ROUNDS, {})
  {
  }

  lemma {:induction false} RunCovers(cfg: Config, run: seq<Timed>, h: int)
    ensures Covers(cfg, run, h)
  {
    if run != [] {
      RunCovers(cfg, run[..|run| - 1], h);
      StepCovers(cfg, run, h);
    }
  }

  lemma StepCovers(cfg: Config, run: seq<Timed>, h: int)
    requires run != [] && Covers(cfg, run[..|run| - 1], h)
    ensures Covers(cfg, run, h)
  {
    var before, e := run[..|run| - 1], run[|run| - 1];
    var t, u := Run(cfg, before), Run(cfg, run);
    assert u == Step(t, e) by { hide Step; }
    RunOk(cfg, before);
    RunOk(cfg, run);
    StepEvolves(t, e);
    EvolvesOk(t, u);
    if h in u.archive {
      BlockAt(u, h);
      CountedStep(cfg, run, h);
    } else {
      hide ArchiveOk, Step, After, Counts, CountIn, Evolves, Admissible;
      if h > u.archiveEvictedThrough && h > 0 { UncountedStep(cfg, run, h); }
    }
  }

  lemma AdmittedAfter(cfg: Config, run: seq<Timed>, h: int)
    requires run != []
    ensures var r, t := OfferedRound(run[|run| - 1].op, h), Run(cfg, run[..|run| - 1]);
      && (r.Some? && Admissible(t, h, r.value) ==>
            Admitted(cfg, run, h) == Admitted(cfg, run[..|run| - 1], h) + {r.value})
      && (!(r.Some? && Admissible(t, h, r.value)) ==> Admitted(cfg, run, h) == Admitted(cfg, run[..|run| - 1], h))
  {
    hide Run, Admissible, OfferedRound;
  }

  lemma AdmissibleIsNew(t: TrackerState, h: int, r: int)
    requires Admissible(t, h, r)
    ensures r >= 0 && r > CountAt(t, h).evictedThrough && r !in CountAt(t, h).rounds
  {
  }

  lemma CountedBefore(cfg: Config, run: seq<Timed>, h: int)
    requires Covers(cfg, run, h) && h > 0
    requires h in Run(cfg, run).archive || h > Run(cfg, run).archiveEvictedThrough
    ensures Counts(CountAt(Run(cfg, run), h), Admitted(cfg, run, h))
  {
    NothingCounted();
    hide Run, Counts, Admitted, CountIn;
  }

  lemma NewIsAboveWatermark(t: TrackerState, u: TrackerState, h: int)
    requires Ages(t, u) && h in u.archive
    ensures h in t.archive || h > t.archiveEvictedThrough
  {
    hide Admissible;
  }

  lemma CountedStep(cfg: Config, run: seq<Timed>, h: int)
    requires run != [] && Covers(cfg, run[..|run| - 1], h) && h in Run(cfg, run).archive
    requires ArchiveOk(Run(cfg, run[..|run| - 1])) && Run(cfg, run) == Step(Run(cfg, run[..|run| - 1]), run[|run| - 1])
    requires Ages(Run(cfg, run[..|run| - 1]), Run(cfg, run)) && h > 0
    ensures Counts(CountAt(Run(cfg, run), h), Admitted(cfg, run, h))
  {
    hide *;
    var before, e := run[..|run| - 1], run[|run| - 1];
    var t, r := Run(cfg, before), OfferedRound(e.op, h);
    NewIsAboveWatermark(t, Run(cfg, run), h);
    CountedBefore(cfg, before, h);
    AdmittedAfter(cfg, run, h);
    StepCounts(t, e, h);
    if r.Some? && Admissible(t, h, r.value) {
      AdmissibleIsNew(t, h, r.value);
      AdmitCounts(CountAt(t, h), Admitted(cfg, before, h), r.value);
    }
  }

  /** A height that is not retained and not evicted was never offered an admissible round. */
  lemma UncountedStep(cfg: Config, run: seq<Timed>, h: int)
    requires run != [] && Covers(cfg, run[..|run| - 1], h)
    requires h !in Run(cfg, run).archive && h > Run(cfg, run).archiveEvictedThrough && h > 0
    requires ArchiveOk(Run(cfg, run[..|run| - 1])) && Run(cfg, run) == Step(Run(cfg, run[..|run| - 1]), run[|run| - 1])
    requires Ages(Run(cfg, run[..|run| - 1]), Run(cfg, run))
    ensures Admitted(cfg, run, h) == {}
  {
    var before, e := run[..|run| - 1], run[|run| - 1];
    var t := Run(cfg, before);
    assert h !in t.archive && h > t.archiveEvictedThrough;
    hide ArchiveOk, Step, Run, Counts, Ages, CountIn;
    var r := OfferedRound(e.op, h);
    if r.Some? && Admissible(t, h, r.value) {
      assert h > t.committedHeight;
      hide Admissible;
      OfferRetains(t, e, h, r.value);
    }
  }

  lemma CreateRetains(t: TrackerState, h: int, now: int)
    requires ArchiveOk(t) && h > 0 && h > t.committedHeight
    ensures h in EnsureHeight(t, h, now).archive || h <= EnsureHeight(t, h, now).archiveEvictedThrough
  {
    EnsureHeightFacts(t, h, now);
    hide ArchiveOk, Ages, CatalogueStep, CreateHeight;
  }

  lemma LocateRetains(t: TrackerState, h: int, r: int, now: int)
    requires ArchiveOk(t) && h > 0 && h > t.committedHeight
    ensures h in Locate(t, h, r, now).archive || h <= Locate(t, h, r, now).archiveEvictedThrough
  {
    CreateRetains(t, h, now);
    EnsureHeightFacts(t, h, now);
    hide EnsureHeight, ArchiveOk, InsertRound, EvictOldestRound, Ages, CatalogueStep, OnlyPruned;
  }

  /** u is retaining h, or past it. */
  ghost predicate Holds(u: TrackerState, h: int) { h in u.archive || h <= u.archiveEvictedThrough }

  lemma VoteRetains(t: TrackerState, v: VoteEvent, now: int)
    requires ArchiveOk(t) && ValidVote(v) && v.height > t.committedHeight
    ensures Holds(ObserveVote(t, v, now), v.height)
  {
    LocateRetains(t, v.height, v.round, now);
    hide Locate, ArchiveOk, RecordVote;
  }

  lemma RoundRetains(t: TrackerState, h: int, r: int, proposer: string, now: int)
    requires ArchiveOk(t) && IsRound(OpObserveRound(h, r, proposer), h, r) && h > t.committedHeight
    ensures Holds(ObserveRound(t, h, r, proposer, now), h)
  {
    LocateRetains(t, h, r, now);
    hide Locate, ArchiveOk, Propose;
  }

  lemma IngestHolds(t: TrackerState, v: VoteEvent, now: int)
    requires Holds(ObserveVote(t, v, now), v.height)
    ensures Holds(IngestVote(t, v, now).tracker, v.height)
  {
    hide ObserveVote, ReportOf, Fires, AddVote, HasVote;
  }

  lemma OfferRetains(t: TrackerState, e: Timed, h: int, r: int)
    requires ArchiveOk(t) && OfferedRound(e.op, h) == Some(r) && h > 0 && h > t.committedHeight
    ensures h in Step(t, e).archive || h <= Step(t, e).archiveEvictedThrough
  {
    hide ArchiveOk, ObserveVote, ObserveRound, IngestVote;
    match e.op
    case OpObserveVote(v) => VoteRetains(t, v, e.now);
    case OpIngestVote(v) =>
      VoteRetains(t, v, e.now);
      IngestHolds(t, v, e.now);
    case OpObserveRound(x, y, proposer) => RoundRetains(t, x, y, proposer, e.now);
    case OpSetValidators(vs) =>
    case OpMarkRoundAdvanced(x, y) =>
    case OpResolveCommit(x, hash) =>
  }

  // ---------- the theorems ----------

  lemma MissingIsDifference(c: Tally, admitted: set<int>)
    requires Counts(c, admitted) && c.observed > 0
    ensures c.last - c.observed + 1 == |Interval(0, c.last + 1) - admitted|
  {
    var all := Interval(0, c.last + 1);
    assert admitted != {} && admitted <= all && c.last >= 0;
    hide Interval, Counts;
    IntervalSize(0, c.last + 1);
    DifferenceSize(all, admitted);
    assert c.observed == |admitted|;
  }

  lemma DifferenceSize(all: set<int>, part: set<int>)
    requires part <= all
    ensures |all - part| == |all| - |part|
  {
    assert all == (all - part) + part;
    assert |all| == |all - part| + |part|;
  }

  lemma CoverageFacts(h: int, b: ArchivedHeight, admitted: set<int>)
    requires BlockOk(h, b) && Counts(CountIn(b), admitted)
    ensures b.roundsObserved == |admitted| == |b.rounds| + b.roundsEvicted
    ensures b.rounds.Keys == (set r | r in admitted && r > b.evictedThrough)
    ensures admitted != {} ==> b.firstRound in admitted && b.lastRound in admitted
    ensures forall r :: r in admitted ==> 0 <= b.firstRound <= r <= b.lastRound
    ensures b.roundsEvicted > 0 ==> b.rounds.Keys != {}
    ensures MissingRounds(b) == if admitted == {} then 0 else |Interval(0, b.lastRound + 1) - admitted|
  {
    hide RoundsOk;
    if b.roundsObserved > 0 { MissingIsDifference(CountIn(b), admitted); }
    var kept := set r | r in admitted && r > b.evictedThrough;
    assert CountIn(b).rounds == b.rounds.Keys;
    forall r ensures r in kept <==> r in b.rounds.Keys { }
  }

  /**
   roundsObserved counts the admitted rounds, which are the retained and the evicted ones; the retained
   ones are those above the watermark; firstRound and lastRound are their extremes; MissingRounds counts
   the rounds of 0..lastRound never admitted, so it is never negative.
   */
  lemma CoverageCountsAdmitted(cfg: Config, run: seq<Timed>, h: int)
    requires h in Run(cfg, run).archive
    ensures var b, admitted := Run(cfg, run).archive[h], Admitted(cfg, run, h);
      && b.roundsObserved == |admitted| == |b.rounds| + b.roundsEvicted
      && b.rounds.Keys == (set r | r in admitted && r > b.evictedThrough)
      && (admitted != {} ==> b.firstRound in admitted && b.lastRound in admitted)
      && (forall r :: r in admitted ==> 0 <= b.firstRound <= r <= b.lastRound)
      && (b.roundsEvicted > 0 ==> b.rounds.Keys != {})
      && MissingRounds(b) == if admitted == {} then 0 else |Interval(0, b.lastRound + 1) - admitted|
  {
    RunCovers(cfg, run, h);
    RunOk(cfg, run);
    var t := Run(cfg, run);
    BlockAt(t, h);
    assert BlockOk(h, t.archive[h]) && Counts(CountIn(t.archive[h]), Admitted(cfg, run, h));
    hide Run, After, ArchiveOk, Admitted, RoundsOk;
    CoverageFacts(h, t.archive[h], Admitted(cfg, run, h));
  }

  lemma {:induction false} RefusedStays(cfg: Config, run: seq<Timed>, h: int, r: int)
    requires r in Refused(cfg, run, h)
    ensures !Admissible(Run(cfg, run), h, r)
    ensures r !in Admitted(cfg, run, h)
  {
    var before, e := run[..|run| - 1], run[|run| - 1];
    var t, u := Run(cfg, before), Run(cfg, run);
    assert u == Step(t, e) by { hide Step; }
    RunOk(cfg, before);
    StepEvolves(t, e);
    EvolvesOk(t, u);
    if r in Refused(cfg, before, h) { RefusedStays(cfg, before, h, r); }
    assert !Admissible(t, h, r);
    hide Run, Step, Evolves, ArchiveOk, Ages, Admissible;
    if Admissible(u, h, r) {
      AdmissibleEarlier(t, u, h, r);
      assert false;
    }
  }

  /** Every observed round was admitted or refused, never both. */
  lemma {:induction false} OfferedSplits(cfg: Config, run: seq<Timed>, h: int)
    ensures Offered(run, h) == Admitted(cfg, run, h) + Refused(cfg, run, h)
    ensures Admitted(cfg, run, h) !! Refused(cfg, run, h)
  {
    forall r | r in Refused(cfg, run, h) ensures r !in Admitted(cfg, run, h) { RefusedStays(cfg, run, h, r); }
    hide Admissible, Run;
    if run != [] { OfferedSplits(cfg, run[..|run| - 1], h); }
  }

  /**
   MissingRounds is the number of rounds of 0..lastRound never observed plus the number of those
   observed only too late; it is the exact count of unobserved rounds if and only if none was refused.
   */
  lemma MissingIsExactUnlessRefused(cfg: Config, run: seq<Timed>, h: int)
    requires h in Run(cfg, run).archive && Admitted(cfg, run, h) != {}
    ensures var b, all := Run(cfg, run).archive[h], Interval(0, Run(cfg, run).archive[h].lastRound + 1);
      && MissingRounds(b) == |all - Offered(run, h)| + |all * Refused(cfg, run, h)|
      && (MissingRounds(b) == |all - Offered(run, h)|
        <==> forall r :: 0 <= r <= b.lastRound ==> r !in Refused(cfg, run, h))
  {
    CoverageCountsAdmitted(cfg, run, h);
    OfferedSplits(cfg, run, h);
    hide Run, After, Admitted, Refused, Offered, MissingRounds;
    var all, admitted, refused := Interval(0, Run(cfg, run).archive[h].lastRound + 1), Admitted(cfg, run, h),
      Refused(cfg, run, h);
    SplitMissing(all, admitted, refused, Offered(run, h));
  }

  lemma SplitMissing(all: set<int>, admitted: set<int>, refused: set<int>, offered: set<int>)
    requires offered == admitted + refused && admitted !! refused
    ensures |all - admitted| == |all - offered| + |all * refused|
    ensures |all * refused| == 0 <==> forall r :: r in all ==> r !in refused
  {
    assert all - admitted == (all - offered) + all * refused;
    if |all * refused| == 0 {
      assert all * refused == {};
      forall r | r in all ensures r !in refused { assert r in refused ==> r in all * refused; }
    } else {
      var r := Pick(all * refused);
      assert r in all && r in refused;
    }
  }

  // ---------- where the count is not exact ----------

  /** run, then the commit of h, then a first notice of round r of h. */
  function LateNotice(run: seq<Timed>, h: int, r: int): seq<Timed>
  {
    run + [Timed(OpResolveCommit(h, ""), 0)] + [Timed(OpObserveRound(h, r, ""), 0)]
  }

  lemma CommitClosesHeight(cfg: Config, run: seq<Timed>, h: int, r: int)
    ensures !Admissible(Run(cfg, run + [Timed(OpResolveCommit(h, ""), 0)]), h, r)
    ensures Offered(run + [Timed(OpResolveCommit(h, ""), 0)], h) == Offered(run, h)
  {
    var e := Timed(OpResolveCommit(h, ""), 0);
    assert (run + [e])[..|run|] == run;
    assert Run(cfg, run + [e]) == Step(Run(cfg, run), e) by { hide Step; }
    hide ArchiveCommit, ResolvedReports, Run, After;
  }

  /** A round first noticed after the commit is observed, yet still reported missing. */
  lemma LateRoundIsRefused(cfg: Config, run: seq<Timed>, h: int, r: int)
    requires h > 0 && 0 <= r <= MAX_ROUND && r !in Offered(run, h)
    ensures r in Offered(LateNotice(run, h, r), h) && r in Refused(cfg, LateNotice(run, h, r), h)
  {
    var two, e := run + [Timed(OpResolveCommit(h, ""), 0)], Timed(OpObserveRound(h, r, ""), 0);
    assert LateNotice(run, h, r)[..|two|] == two;
    CommitClosesHeight(cfg, run, h, r);
    OfferedSplits(cfg, two, h);
    assert OfferedRound(e.op, h) == Some(r);
    hide Admissible, After, Run, OfferedRound, IsRound, IsVote;
  }

  lemma FirstRoundAt(t: TrackerState)
    requires ArchiveOk(t) && t.archive == map[] && t.archiveEvictedThrough == 0 && t.committedHeight == 0
    ensures var u := ObserveRound(t, 1, 5, "", 0);
      1 in u.archive && u.archive[1].lastRound == 5 && u.archive[1].roundsObserved == 1
  {
    var g := InsertHeight(t, 1, 0);
    assert g.archive.Keys == {1};
    assert |g.archive| == |g.archive.Keys| == 1;
    var b := InsertRound(g.archive[1], 5, t.defaultValidators, 0);
    assert b.rounds.Keys == {5};
    assert |b.rounds| == |b.rounds.Keys| == 1;
  }

  lemma CommitKeepsCounts(t: TrackerState, h: int)
    requires ArchiveOk(t) && h in t.archive
    ensures var u := ResolveCommit(t, h, "", 0);
      h in u.archive && u.committedHeight >= h && u.archive[h].height == h
      && u.archive[h].lastRound == t.archive[h].lastRound && u.archive[h].roundsObserved == t.archive[h].roundsObserved
  {
    BlockAt(t, h);
    hide ArchiveOk, BlockOk, CloseAll;
    assert ResolveCommit(t, h, "", 0).archive == CommitArchive(t, h, "", 0).archive by {
      CloseAllKeeps(CommitArchive(t, h, "", 0), h, "");
    }
    CloseAllKeeps(CommitArchive(t, h, "", 0), h, "");
  }

  lemma CloseAllKeeps(u: TrackerState, h: int, hash: string)
    ensures CloseAll(u, h, hash).archive == u.archive && CloseAll(u, h, hash).committedHeight == u.committedHeight
  {
    hide ResolvedReports, Close;
  }

  /** Notice of a round of a committed height changes the block's counters in nothing. */
  lemma LateRoundKeepsCounts(u: TrackerState, h: int, r: int)
    requires h in u.archive && u.committedHeight >= h && u.archive[h].height == h
    ensures var w := ObserveRound(u, h, r, "", 0);
      h in w.archive && w.archive[h].lastRound == u.archive[h].lastRound
        && w.archive[h].roundsObserved == u.archive[h].roundsObserved
  {
    hide InsertRound, CreateHeight;
    assert EnsureHeight(u, h, 0) == u;
    assert EnsureRound(u, h, r, 0) == u;
  }

  lemma LateNoticeKeepsBlock(t: TrackerState, r: int)
    requires ArchiveOk(t) && 1 in t.archive
    ensures var u := ObserveRound(ResolveCommit(t, 1, "", 0), 1, r, "", 0);
      1 in u.archive && u.archive[1].lastRound == t.archive[1].lastRound
        && u.archive[1].roundsObserved == t.archive[1].roundsObserved
  {
    hide *;
    CommitKeepsCounts(t, 1);
    LateRoundKeepsCounts(ResolveCommit(t, 1, "", 0), 1, r);
  }

  lemma ObservedMeansAdmitted(cfg: Config, run: seq<Timed>, h: int)
    requires h in Run(cfg, run).archive && Run(cfg, run).archive[h].roundsObserved > 0
    ensures Admitted(cfg, run, h) != {}
  {
    CoverageCountsAdmitted(cfg, run, h);
    hide Run, After, Admitted;
  }

  lemma OneMore(cfg: Config, run: seq<Timed>, e: Timed)
    ensures Run(cfg, run + [e]) == Step(Run(cfg, run), e)
  {
    hide Step;
    assert (run + [e])[..|run|] == run;
  }

  const FIRST_NOTICE: seq<Timed> := [Timed(OpObserveRound(1, 5, ""), 0)]

  lemma LateNoticeState(cfg: Config)
    ensures var u := Run(cfg, LateNotice(FIRST_NOTICE, 1, 3));
      1 in u.archive && u.archive[1].lastRound == 5 && u.archive[1].roundsObserved == 1
  {
    var t, e := NewTracker(cfg), FIRST_NOTICE[0];
    var c, n := Timed(OpResolveCommit(1, ""), 0), Timed(OpObserveRound(1, 3, ""), 0);
    FirstRoundAt(t);
    assert Run(cfg, []) == t && [] + [e] == FIRST_NOTICE;
    assert LateNotice(FIRST_NOTICE, 1, 3) == FIRST_NOTICE + [c] + [n];
    StepsOf(t, 1, 5, 3);
    StepsOf(Run(cfg, FIRST_NOTICE), 1, 5, 3);
    StepsOf(Run(cfg, FIRST_NOTICE + [c]), 1, 5, 3);
    hide *;
    OneMore(cfg, [], e);
    OneMore(cfg, FIRST_NOTICE, c);
    OneMore(cfg, FIRST_NOTICE + [c], n);
    RunOk(cfg, FIRST_NOTICE);
    LateNoticeKeepsBlock(Run(cfg, FIRST_NOTICE), 3);
  }

  lemma StepsOf(t: TrackerState, h: int, r: int, late: int)
    ensures Step(t, Timed(OpObserveRound(h, r, ""), 0)) == ObserveRound(t, h, r, "", 0)
    ensures Step(t, Timed(OpObserveRound(h, late, ""), 0)) == ObserveRound(t, h, late, "", 0)
    ensures Step(t, Timed(OpResolveCommit(h, ""), 0)) == ResolveCommit(t, h, "", 0)
  {
    hide ObserveRound, ResolveCommit;
  }

  /** Round 5 of height 1, its commit, then round 3: the report counts round 3 as missing. */
  lemma MissingIsNotAlwaysExact(cfg: Config)
    ensures var run := LateNotice(FIRST_NOTICE, 1, 3);
      && 1 in Run(cfg, run).archive
      && MissingRounds(Run(cfg, run).archive[1]) != |Interval(0, Run(cfg, run).archive[1].lastRound + 1) - Offered(run,
        1)|
  {
    assert Offered(FIRST_NOTICE, 1) == {5} by { assert FIRST_NOTICE[..0] == []; }
    hide Run, After, Offered, Refused, Admitted, LateNotice, MissingRounds;
    var run := LateNotice(FIRST_NOTICE, 1, 3);
    LateNoticeState(cfg);
    LateRoundIsRefused(cfg, FIRST_NOTICE, 1, 3);
    ObservedMeansAdmitted(cfg, run, 1);
    MissingIsExactUnlessRefused(cfg, run, 1);
  }
}
