/**
 internal/divergence: every locked entry point of the tracker as a step on its value, and the
 relation that each step keeps between the state before and the state after.
 */
module Tracker {
  import opened Common
  import opened TrackerTypes
  import opened Archive
  import opened Evidence
  import opened Detector

  // ---------- SetValidators ----------

  type Listing = seq<(string, Validator)>

  /** The map SetValidators builds: a later entry for an address replaces an earlier one. */
  function RosterOf(vs: Listing): Roster
  {
    if vs == [] then map[] else RosterOf(vs[..|vs| - 1])[vs[|vs| - 1].0 := vs[|vs| - 1].1]
  }

  function TotalOf(vs: Listing): int
  {
    if vs == [] then 0 else TotalOf(vs[..|vs| - 1]) + vs[|vs| - 1].1.power
  }

  ghost function SetValidators(t: TrackerState, vs: Listing): TrackerState
  {
    var m, total := RosterOf(vs), TotalOf(vs);
    t.(defaultValidators := m,
       defaultTotalPower := total,
       rounds := map k | k in t.rounds :: Reweigh(t.rounds[k], m, total),
       archive := map h | h in t.archive :: Backfill(t.archive[h], m))
  }

  // ---------- IngestVote ----------

  datatype Ingested = Ingested(tracker: TrackerState, report: Option<RoundReport>, trigger: bool)

  function KeyOf(v: VoteEvent): Key { Key(v.height, v.round, v.kind) }

  predicate HasVote(t: TrackerState, v: VoteEvent)
  {
    t.Retained(v.height, v.round) && t.archive[v.height].rounds[v.round].Vote(v.addr, v.kind).Some?
  }

  /** Precommits over two thirds, or (when prevotes count) a complete round. */
  predicate Settled(cfg: Config, kind: VoteType, rd: RoundData)
  {
    || (kind == Precommit && rd.totalVotingPower > 0 && rd.totalVotedPower > rd.totalVotingPower * 2 / 3)
    || (cfg.includePrevotes && rd.totalVotedPower == rd.totalVotingPower && rd.totalVotingPower > 0)
  }

  predicate Fires(cfg: Config, kind: VoteType, rd: RoundData, divergent: bool)
  {
    (kind == Precommit || cfg.includePrevotes) && !rd.advanced && Settled(cfg, kind, rd) && divergent && !rd.detected
  }

  /** IngestVote once the archive has admitted the vote. */
  ghost function CountVote(u: TrackerState, v: VoteEvent): Ingested
  {
    var key := KeyOf(v);
    var rd := if key in u.rounds then u.rounds[key] else NewRoundData(u.defaultValidators, u.defaultTotalPower);
    if v.addr in rd.seen
      then Ingested(u.(rounds := u.rounds[key := rd]), Some(ReportOf(rd, key, u.cfg.thresholdPct)), false) else
      var counted := AddVote(rd, v.addr, v.hash);
      var report := ReportOf(counted, key, u.cfg.thresholdPct);
      var fires := Fires(u.cfg, v.kind, counted, report.isDivergent);
      Ingested(u.(rounds := u.rounds[key := if fires then counted.(detected := true) else counted]), Some(report),
        fires)
  }

  ghost function IngestVote(t: TrackerState, v: VoteEvent, now: int): Ingested
  {
    var u := ObserveVote(t, v, now);
    if !HasVote(u, v) || v.height <= u.committedHeight then Ingested(u, None, false) else CountVote(u, v)
  }

  // ---------- MarkRoundAdvanced and ResolveCommit ----------

  function MarkRoundAdvanced(t: TrackerState, h: int, r: int): TrackerState
  {
    t.(rounds := map k | k in t.rounds ::
         if k.height == h && k.round == r && k.kind != OtherType then t.rounds[k].(advanced := true) else t.rounds[k])
  }

  function Close(rd: RoundData, k: Key, h: int, hash: string): RoundData
  {
    if rd.resolved || k.height > h then rd
    else if k.height == h then rd.(committed := true, resolved := true, canonicalHash := hash)
    else rd.(committed := true, resolved := true)
  }

  function Rank(kind: VoteType): int { match kind case Prevote => 1 case Precommit => 2 case OtherType => 3 }

  function ReportLess(a: RoundReport, b: RoundReport): bool
  {
    if a.key.round != b.key.round then a.key.round < b.key.round else Rank(a.key.kind) < Rank(b.key.kind)
  }

  ghost function Closing(t: TrackerState, h: int): set<Key>
  {
    set k | k in t.rounds && k.height == h && !t.rounds[k].resolved
  }

  ghost function ClosingReports(t: TrackerState, h: int, hash: string): set<RoundReport>
  {
    set k | k in Closing(t, h) :: ReportOf(Close(t.rounds[k], k, h, hash), k, t.cfg.thresholdPct)
  }

  lemma ClosingOrdered(t: TrackerState, h: int, hash: string)
    ensures Orders(ReportLess, ClosingReports(t, h, hash))
  {
    hide ReportOf;
    forall k | k in t.rounds ensures ReportOf(Close(t.rounds[k], k, h, hash), k, t.cfg.thresholdPct).key == k {
      ReportKey(Close(t.rounds[k], k, h, hash), k, t.cfg.thresholdPct);
    }
  }

  lemma ReportKey(rd: RoundData, key: Key, threshold: real)
    ensures ReportOf(rd, key, threshold).key == key
  {
  }

  function LastOf<T>(xs: seq<T>, n: int): seq<T>
  {
    if 0 <= n < |xs| then xs[|xs| - n..] else xs
  }

  function AdvanceCommitted(t: TrackerState, h: int): TrackerState
  {
    if h > t.committedHeight then t.(committedHeight := h, catalogueRevision := t.catalogueRevision + 1) else t
  }

  /** The reports of the records a commit closes, by round and type. */
  ghost function ResolvedReports(u: TrackerState, h: int, hash: string): seq<RoundReport>
  {
    ClosingOrdered(u, h, hash);
    SortSet(ReportLess, ClosingReports(u, h, hash))
  }

  /** The detector half of ResolveCommit. */
  ghost function CloseAll(u: TrackerState, h: int, hash: string): TrackerState
  {
    u.(rounds := map k | k in u.rounds && k.height >= h - u.cfg.historySize :: Close(u.rounds[k], k, h, hash),
       history := LastOf(u.history + ResolvedReports(u, h, hash), u.cfg.historySize * 4))
  }

  /** The archive half of ResolveCommit, with the committed height. */
  ghost function CommitArchive(t: TrackerState, h: int, hash: string, now: int): TrackerState
  {
    AdvanceCommitted(ArchiveCommit(t, h, hash, now), h)
  }

  ghost function ResolveCommit(t: TrackerState, h: int, hash: string, now: int): TrackerState
  {
    CloseAll(CommitArchive(t, h, hash, now), h, hash)
  }

  // ---------- runs ----------

  datatype Op =
    | OpSetValidators(vs: Listing)
    | OpObserveRound(height: int, round: int, proposer: string)
    | OpObserveVote(v: VoteEvent)
    | OpIngestVote(v: VoteEvent)
    | OpMarkRoundAdvanced(height: int, round: int)
    | OpResolveCommit(height: int, hash: string)

  /** One call of an entry point at a reading of the clock. */
  datatype Timed = Timed(op: Op, now: int)

  ghost function Step(t: TrackerState, e: Timed): TrackerState
  {
    match e.op
    case OpSetValidators(vs) => SetValidators(t, vs)
    case OpObserveRound(h, r, proposer) => ObserveRound(t, h, r, proposer, e.now)
    case OpObserveVote(v) => ObserveVote(t, v, e.now)
    case OpIngestVote(v) => IngestVote(t, v, e.now).tracker
    case OpMarkRoundAdvanced(h, r) => MarkRoundAdvanced(t, h, r)
    case OpResolveCommit(h, hash) => ResolveCommit(t, h, hash, e.now)
  }

  /** Steps applied to t, in order. */
  ghost function After(t: TrackerState, run: seq<Timed>): TrackerState
  {
    if run == [] then t else Step(After(t, run[..|run| - 1]), run[|run| - 1])
  }

  ghost function Run(cfg: Config, run: seq<Timed>): TrackerState { After(NewTracker(cfg), run) }

  // ---------- what every step keeps ----------

  ghost predicate BlocksRevise(t: TrackerState, u: TrackerState)
  {
    forall h :: h in t.archive && h in u.archive ==> RevisionStep(t.archive[h], u.archive[h])
  }

  ghost predicate Evolves(t: TrackerState, u: TrackerState)
  {
    ArchiveOk(u) && Ages(t, u) && CatalogueStep(t, u) && BlocksRevise(t, u)
  }

  /** c is b with evidence written into it: same rounds, same counters, an honest revision. */
  ghost predicate Touched(b: ArchivedHeight, c: ArchivedHeight)
  {
    && BlockOk(b.height, c)
    && c.rounds.Keys == b.rounds.Keys && c.evictedThrough == b.evictedThrough && c.roundsObserved == b.roundsObserved
    && (b.committed ==> c.committed)
    && RevisionStep(b, c)
  }

  lemma PutBlockOk(u: TrackerState, h: int, c: ArchivedHeight)
    requires ArchiveOk(u) && h in u.archive && BlockOk(h, c) && c.rounds.Keys == u.archive[h].rounds.Keys
    ensures ArchiveOk(u.(archive := u.archive[h := c]))
  {
    hide BlockOk;
    var archive := u.archive[h := c];
    assert archive.Keys == u.archive.Keys;
    assert |archive| == |archive.Keys| == |u.archive|;
    assert forall x :: x in archive ==> x in u.archive;
  }

  lemma PutBlockAges(t: TrackerState, u: TrackerState, h: int, c: ArchivedHeight)
    requires Ages(t, u) && h in u.archive && Touched(u.archive[h], c)
    ensures Ages(t, u.(archive := u.archive[h := c]))
    ensures CatalogueStep(t, u) ==> CatalogueStep(t, u.(archive := u.archive[h := c]))
  {
    hide BlockOk, RevisionStep;
    assert u.archive[h := c].Keys == u.archive.Keys;
  }

  lemma PutBlockRevises(t: TrackerState, u: TrackerState, h: int, c: ArchivedHeight)
    requires QuietBlocks(t, u, h) && h in u.archive && Touched(u.archive[h], c)
    ensures BlocksRevise(t, u.(archive := u.archive[h := c]))
  {
    hide BlockOk;
  }

  lemma TouchEvolves(t: TrackerState, u: TrackerState, h: int, c: ArchivedHeight)
    requires ArchiveOk(u) && Ages(t, u) && CatalogueStep(t, u) && QuietBlocks(t, u, h) && h in u.archive
    requires u.archive[h].height == h && Touched(u.archive[h], c)
    ensures Evolves(t, u.(archive := u.archive[h := c]))
  {
    assert BlockOk(h, c) && c.rounds.Keys == u.archive[h].rounds.Keys;
    hide *;
    PutBlockOk(u, h, c);
    PutBlockAges(t, u, h, c);
    PutBlockRevises(t, u, h, c);
    assert Evolves(t, u.(archive := u.archive[h := c])) by { EvolvesIntro(t, u.(archive := u.archive[h := c])); }
  }

  lemma EvolvesIntro(t: TrackerState, u: TrackerState)
    requires ArchiveOk(u) && Ages(t, u) && CatalogueStep(t, u) && BlocksRevise(t, u)
    ensures Evolves(t, u)
  {
  }

  lemma QuietEvolves(t: TrackerState, u: TrackerState, h: int)
    requires ArchiveOk(u) && Ages(t, u) && CatalogueStep(t, u) && QuietBlocks(t, u, h)
    ensures Evolves(t, u)
  {
    hide ArchiveOk, Ages, CatalogueStep;
  }

  lemma RecordTouches(b: ArchivedHeight, v: VoteEvent, now: int)
    requires BlockOk(b.height, b) && v.round in b.rounds && ValidVote(v)
    ensures Touched(b, RecordVote(b, v, now))
  {
    hide RoundOk, RevisionStep, RecordInRound, RecordBumps, Appends;
    RecordRevises(b, v, now);
    RecordInRoundOk(v.round, b.rounds[v.round], v, now);
    assert RecordVote(b, v, now).rounds.Keys == b.rounds.Keys;
    assert RecordVote(b, v, now).revision >= b.revision;
  }

  lemma ProposeTouches(b: ArchivedHeight, r: int, proposer: string, now: int)
    requires BlockOk(b.height, b) && r in b.rounds
    ensures Touched(b, Propose(b, r, proposer, now))
  {
    hide RoundOk;
    var c := Propose(b, r, proposer, now);
    assert RoundOk(r, c.rounds[r]) by { ProposedOk(r, b.rounds[r], proposer, now); }
    assert c.rounds.Keys == b.rounds.Keys;
    if proposer != "" && b.rounds[r].proposer != proposer { assert c.rounds[r].proposer != b.rounds[r].proposer; }
  }

  lemma ProposedOk(r: int, rd: ArchivedRound, proposer: string, now: int)
    requires RoundOk(r, rd)
    ensures RoundOk(r, rd.(proposer := proposer, lastSeen := now))
  {
    assert rd.(proposer := proposer, lastSeen := now).UnknownVoters() == rd.UnknownVoters();
  }

  lemma CommitTouches(b: ArchivedHeight, hash: string, now: int)
    requires BlockOk(b.height, b)
    ensures Touched(b, CommitBlock(b, hash, now))
  {
    hide RoundOk;
    assert RoundsOk(CommitBlock(b, hash, now));
  }

  lemma BlockAt(t: TrackerState, h: int)
    requires ArchiveOk(t) && h in t.archive
    ensures BlockOk(h, t.archive[h]) && t.archive[h].height == h
    ensures 0 <= t.archiveEvictedThrough < h <= t.archiveLatestHeight
  {
  }

  lemma ObserveVoteEvolves(t: TrackerState, v: VoteEvent, now: int)
    requires ArchiveOk(t)
    ensures Evolves(t, ObserveVote(t, v, now))
  {
    if !ValidVote(v) {
      NothingEvolves(t);
    } else {
      hide ArchiveOk, Ages, CatalogueStep, QuietBlocks, QuietRounds, OnlyPruned, Touched, Evolves, BlockOk, RecordVote,
        Locate, Dead;
      var u := Locate(t, v.height, v.round, now);
      LocateIsQuiet(t, v.height, v.round, now);
      if u.Retained(v.height, v.round) {
        BlockAt(u, v.height);
        RecordTouches(u.archive[v.height], v, now);
        TouchEvolves(t, u, v.height, RecordVote(u.archive[v.height], v, now));
      } else {
        QuietEvolves(t, u, v.height);
      }
    }
  }

  lemma ObserveRoundEvolves(t: TrackerState, h: int, r: int, proposer: string, now: int)
    requires ArchiveOk(t)
    ensures Evolves(t, ObserveRound(t, h, r, proposer, now))
  {
    if h <= 0 || r < 0 || r > MAX_ROUND || |proposer| > IDENTITY_LIMIT {
      NothingEvolves(t);
    } else {
      hide ArchiveOk, Ages, CatalogueStep, QuietBlocks, QuietRounds, OnlyPruned, Touched, Evolves, BlockOk, Propose,
        Locate, Dead;
      var u := Locate(t, h, r, now);
      LocateIsQuiet(t, h, r, now);
      if u.Retained(h, r) {
        BlockAt(u, h);
        ProposeTouches(u.archive[h], r, proposer, now);
        TouchEvolves(t, u, h, Propose(u.archive[h], r, proposer, now));
      } else {
        QuietEvolves(t, u, h);
      }
    }
  }

  lemma NothingEvolves(t: TrackerState)
    requires ArchiveOk(t)
    ensures Evolves(t, t)
  {
    hide BlockOk;
  }

  lemma SameBlocksQuiet(t: TrackerState, u: TrackerState, h: int, now: int)
    requires SameBlocksBut(t, u, h, now)
    ensures QuietBlocks(t, u, h)
  {
  }

  lemma ArchiveCommitEvolves(t: TrackerState, h: int, hash: string, now: int)
    requires ArchiveOk(t)
    ensures Evolves(t, ArchiveCommit(t, h, hash, now))
  {
    if |hash| > IDENTITY_LIMIT {
      NothingEvolves(t);
    } else {
      hide ArchiveOk, Ages, CatalogueStep, QuietBlocks, OnlyPruned, Touched, Evolves, BlockOk, CommitBlock,
        CreateHeight, SameBlocksBut;
      var u := CreateHeight(t, h, now);
      CreateHeightFacts(t, h, now);
      SameBlocksQuiet(t, u, h, now);
      if h in u.archive {
        BlockAt(u, h);
        CommitTouches(u.archive[h], hash, now);
        TouchEvolves(t, u, h, CommitBlock(u.archive[h], hash, now));
      } else {
        QuietEvolves(t, u, h);
      }
    }
  }

  // ---------- steps that change only the detector, the committed height or the rosters ----------

  /** u differs from t in the detector and its history only, and has no new detector key without an archived round. */
  lemma DetectorStepEvolves(t: TrackerState, u: TrackerState, w: TrackerState)
    requires Evolves(t, u)
    requires w == u.(rounds := w.rounds, history := w.history)
    requires forall k :: k in w.rounds ==> u.Retained(k.height, k.round) && k.kind != OtherType
    ensures Evolves(t, w)
  {
    hide BlockOk, RevisionStep;
    assert ArchiveOk(w);
    assert Ages(t, w);
  }

  lemma AdvanceCommittedEvolves(t: TrackerState, u: TrackerState, h: int)
    requires Evolves(t, u)
    ensures Evolves(t, AdvanceCommitted(u, h))
  {
    hide BlockOk, RevisionStep;
    assert ArchiveOk(AdvanceCommitted(u, h));
    assert Ages(t, AdvanceCommitted(u, h));
  }

  /** Counting a vote touches one record of the detector and nothing else. */
  lemma CountVoteKeeps(u: TrackerState, v: VoteEvent)
    ensures var w := CountVote(u, v).tracker;
      w == u.(rounds := w.rounds) && w.rounds.Keys == u.rounds.Keys + {KeyOf(v)}
  {
    hide ReportOf, AddVote, Fires;
  }

  lemma IngestCases(t: TrackerState, v: VoteEvent, now: int)
    ensures var u, w := ObserveVote(t, v, now), IngestVote(t, v, now).tracker;
      w == u || (HasVote(u, v) && w == CountVote(u, v).tracker)
  {
    hide ObserveVote, CountVote, HasVote;
  }

  lemma VoteHasKind(u: TrackerState, v: VoteEvent)
    requires HasVote(u, v)
    ensures u.Retained(v.height, v.round) && v.kind != OtherType
  {
  }

  lemma KeysAreArchived(u: TrackerState)
    requires ArchiveOk(u)
    ensures forall k :: k in u.rounds ==> u.Retained(k.height, k.round) && k.kind != OtherType
  {
    hide BlockOk;
  }

  lemma EvolvesOk(t: TrackerState, u: TrackerState)
    requires Evolves(t, u)
    ensures ArchiveOk(u) && Ages(t, u)
  {
    hide ArchiveOk, Ages;
  }

  lemma IngestVoteEvolves(t: TrackerState, v: VoteEvent, now: int)
    requires ArchiveOk(t)
    ensures Evolves(t, IngestVote(t, v, now).tracker)
  {
    hide *;
    var u, w := ObserveVote(t, v, now), IngestVote(t, v, now).tracker;
    ObserveVoteEvolves(t, v, now);
    EvolvesOk(t, u);
    IngestCases(t, v, now);
    if w != u {
      VoteHasKind(u, v);
      CountVoteKeeps(u, v);
      KeysAreArchived(u);
      CountedKey(v);
      DetectorStepEvolves(t, u, w);
    }
  }

  lemma CountedKey(v: VoteEvent)
    ensures KeyOf(v) == Key(v.height, v.round, v.kind)
  {
  }

  lemma ResolveCommitEvolves(t: TrackerState, h: int, hash: string, now: int)
    requires ArchiveOk(t)
    ensures Evolves(t, ResolveCommit(t, h, hash, now))
  {
    var u := ArchiveCommit(t, h, hash, now);
    ArchiveCommitEvolves(t, h, hash, now);
    AdvanceCommittedEvolves(t, u, h);
    assert ArchiveOk(AdvanceCommitted(u, h));
    assert forall k ::
      k in AdvanceCommitted(u, h).rounds ==> AdvanceCommitted(u, h).Retained(k.height, k.round) && k.kind != OtherType;
    hide ArchiveOk, Evolves, ArchiveCommit, AdvanceCommitted, ResolvedReports, Close;
    DetectorStepEvolves(t, AdvanceCommitted(u, h), ResolveCommit(t, h, hash, now));
  }

  lemma MarkRoundAdvancedEvolves(t: TrackerState, h: int, r: int)
    requires ArchiveOk(t)
    ensures Evolves(t, MarkRoundAdvanced(t, h, r))
  {
    NothingEvolves(t);
    assert forall k :: k in t.rounds ==> t.Retained(k.height, k.round) && k.kind != OtherType;
    hide ArchiveOk, Evolves;
    DetectorStepEvolves(t, t, MarkRoundAdvanced(t, h, r));
  }

  lemma FilledRoundOk(r: int, rd: ArchivedRound, m: Roster)
    requires RoundOk(r, rd) && |rd.roster| == 0
    ensures RoundOk(r, rd.(roster := m))
  {
    SubsetSize(rd.(roster := m).UnknownVoters(), rd.UnknownVoters());
  }

  lemma BackfillOk(b: ArchivedHeight, m: Roster)
    requires BlockOk(b.height, b)
    ensures BlockOk(b.height, Backfill(b, m)) && Backfill(b, m).rounds.Keys == b.rounds.Keys
  {
    hide RoundOk;
    var c := Backfill(b, m);
    assert c.rounds.Keys == b.rounds.Keys;
    assert |c.rounds| == |c.rounds.Keys| == |b.rounds|;
    forall r | r in c.rounds ensures RoundOk(r, c.rounds[r]) {
      if |b.rounds[r].roster| == 0 { FilledRoundOk(r, b.rounds[r], m); }
    }
  }

  lemma BackfillRevises(b: ArchivedHeight, m: Roster)
    ensures RevisionStep(b, Backfill(b, m))
  {
    var c := Backfill(b, m);
    assert c.rounds.Keys == b.rounds.Keys;
    if |m| > 0 && Unfilled(b) != {} {
      var r := Pick(Unfilled(b));
      assert c.rounds[r].roster == m && b.rounds[r].roster != m;
    } else {
      forall r | r in b.rounds ensures c.rounds[r] == b.rounds[r] {
        if |m| > 0 {
          assert r !in Unfilled(b);
        } else {
          assert m == map[];
        }
      }
      assert c.rounds == b.rounds;
    }
  }

  lemma BackfillTouches(b: ArchivedHeight, m: Roster)
    requires BlockOk(b.height, b)
    ensures Touched(b, Backfill(b, m))
  {
    BackfillOk(b, m);
    BackfillRevises(b, m);
  }

  /** Blocks and records in place of others, height by height and key by key. */
  lemma ReplacedOk(t: TrackerState, u: TrackerState)
    requires ArchiveOk(t) && u.archive.Keys == t.archive.Keys && u.rounds.Keys == t.rounds.Keys && u.cfg == t.cfg
    requires u.archiveEvictedThrough == t.archiveEvictedThrough && u.committedHeight == t.committedHeight
    requires u.archiveLatestHeight == t.archiveLatestHeight
    requires forall h :: h in t.archive ==>
      BlockOk(h, u.archive[h]) && u.archive[h].rounds.Keys == t.archive[h].rounds.Keys
    ensures ArchiveOk(u)
  {
    hide BlockOk;
    assert |u.archive| == |u.archive.Keys| == |t.archive|;
    assert forall h :: h in u.archive ==> h in t.archive;
    assert forall k :: k in u.rounds ==> k in t.rounds;
  }

  lemma SetValidatorsOk(t: TrackerState, vs: Listing)
    requires ArchiveOk(t)
    ensures ArchiveOk(SetValidators(t, vs))
  {
    hide BlockOk, Reweigh, Backfill, RosterOf, TotalOf, ArchiveOk;
    var u, m := SetValidators(t, vs), RosterOf(vs);
    forall h | h in t.archive ensures BlockOk(h, u.archive[h]) && u.archive[h].rounds.Keys == t.archive[h].rounds.Keys {
      BlockAt(t, h);
      BackfillOk(t.archive[h], m);
    }
    ReplacedOk(t, u);
  }

  lemma AllTouchedAges(t: TrackerState, u: TrackerState)
    requires u.archive.Keys == t.archive.Keys && forall h :: h in t.archive ==> Touched(t.archive[h], u.archive[h])
    requires u.cfg == t.cfg && u.archiveEvictedThrough == t.archiveEvictedThrough
      && u.committedHeight == t.committedHeight
    requires u.archiveLatestHeight == t.archiveLatestHeight && u.catalogueRevision == t.catalogueRevision
    ensures Ages(t, u) && CatalogueStep(t, u) && BlocksRevise(t, u)
  {
    hide BlockOk, RevisionStep;
  }

  lemma SetValidatorsEvolves(t: TrackerState, vs: Listing)
    requires ArchiveOk(t)
    ensures Evolves(t, SetValidators(t, vs))
  {
    hide ArchiveOk, BlockOk, Reweigh, Backfill, RosterOf, TotalOf, RevisionStep, Touched, Ages, CatalogueStep,
      BlocksRevise;
    var u, m := SetValidators(t, vs), RosterOf(vs);
    SetValidatorsOk(t, vs);
    assert u.archive.Keys == t.archive.Keys;
    forall h | h in t.archive ensures Touched(t.archive[h], u.archive[h]) {
      BlockAt(t, h);
      BackfillTouches(t.archive[h], m);
    }
    AllTouchedAges(t, u);
  }

  lemma StepEvolves(t: TrackerState, e: Timed)
    requires ArchiveOk(t)
    ensures Evolves(t, Step(t, e))
  {
    hide ArchiveOk, Evolves, SetValidators, ObserveRound, ObserveVote, IngestVote, MarkRoundAdvanced, ResolveCommit;
    match e.op
    case OpSetValidators(vs) => SetValidatorsEvolves(t, vs);
    case OpObserveRound(h, r, proposer) => ObserveRoundEvolves(t, h, r, proposer, e.now);
    case OpObserveVote(v) => ObserveVoteEvolves(t, v, e.now);
    case OpIngestVote(v) => IngestVoteEvolves(t, v, e.now);
    case OpMarkRoundAdvanced(h, r) => MarkRoundAdvancedEvolves(t, h, r);
    case OpResolveCommit(h, hash) => ResolveCommitEvolves(t, h, hash, e.now);
  }
}
