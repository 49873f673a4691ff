/** Vote power is conserved and a divergent verdict persists, over whole runs of the tracker. */
module Conservation {
  import opened Common
  import opened TrackerTypes
  import opened Archive
  import opened Detector
  import opened Tracker
  import opened TrackerRuns

  /** Validator powers handed to SetValidators are nonnegative, as CometBFT guarantees. */
  ghost predicate Weighted(op: Op)
  {
    op.OpSetValidators? ==> forall i :: 0 <= i < |op.vs| ==> op.vs[i].1.power >= 0
  }

  ghost predicate WeightedRun(run: seq<Timed>) { forall i :: 0 <= i < |run| ==> Weighted(run[i].op) }

  lemma {:induction false} ListingTotal(vs: Listing)
    requires forall i :: 0 <= i < |vs| ==> vs[i].1.power >= 0
    ensures RosterTotal(RosterOf(vs), TotalOf(vs))
  {
    if vs == [] {
      assert RosterOf(vs) == map[];
    } else {
      var front, last := vs[..|vs| - 1], vs[|vs| - 1];
      ListingTotal(front);
      RosterInsert(RosterOf(front), last.0, last.1);
    }
  }

  lemma RosterInsert(m: Roster, a: string, v: Validator)
    requires NonNegative(m) && v.power >= 0
    ensures NonNegative(m[a := v]) && Sum(m[a := v].Keys, Weigh(m[a := v])) <= Sum(m.Keys, Weigh(m)) + v.power
  {
    var n := m[a := v];
    SumRemove(n.Keys, Weigh(n), a);
    assert n.Keys - {a} == m.Keys - {a};
    SumAgree(m.Keys - {a}, Weigh(n), Weigh(m));
    if a in m {
      SumRemove(m.Keys, Weigh(m), a);
    } else {
      assert m.Keys - {a} == m.Keys;
    }
  }

  /** A record conserves power, and its total covers its roster. */
  ghost predicate RecordOk(rd: RoundData)
  {
    DetectorOk(rd) && RosterTotal(rd.validators, rd.totalVotingPower)
  }

  ghost predicate RecordsOk(t: TrackerState)
  {
    && RosterTotal(t.defaultValidators, t.defaultTotalPower)
    && (forall k :: k in t.rounds ==> RecordOk(t.rounds[k]))
  }

  lemma FreshRecordOk(m: Roster, total: int)
    requires RosterTotal(m, total)
    ensures RecordOk(NewRoundData(m, total))
  {
  }

  lemma CountedRecordOk(rd: RoundData, a: string, hash: string)
    requires RecordOk(rd) && a !in rd.seen
    ensures RecordOk(AddVote(rd, a, hash))
  {
    hide DetectorOk, RosterTotal;
    AddVoteKeepsOk(rd, a, hash);
  }

  lemma SeededRecordOk(rd: RoundData, m: Roster, total: int)
    requires RecordOk(rd) && RosterTotal(m, total)
    ensures RecordOk(Reweigh(rd, m, total))
  {
    hide DetectorOk, RosterTotal;
    ReweighKeepsOk(rd, m, total);
  }

  lemma FlagsKeepRecordOk(rd: RoundData, rd2: RoundData)
    requires RecordOk(rd)
      && rd2 == rd.(resolved := rd2.resolved, canonicalHash := rd2.canonicalHash, committed := rd2.committed,
        advanced := rd2.advanced, detected := rd2.detected)
    ensures RecordOk(rd2)
  {
  }

  lemma PrunedRecordsOk(t: TrackerState, u: TrackerState)
    requires RecordsOk(t) && OnlyPruned(t, u)
    ensures RecordsOk(u)
  {
    hide RecordOk, RosterTotal;
  }

  lemma IngestRecordsOk(t: TrackerState, v: VoteEvent, now: int)
    requires ArchiveOk(t) && RecordsOk(t)
    ensures RecordsOk(IngestVote(t, v, now).tracker)
  {
    hide ArchiveOk, ObserveVote, OnlyPruned, RecordOk, RosterTotal, ReportOf, Fires, AddVote, HasVote;
    var u := ObserveVote(t, v, now);
    ObserveVotePrunes(t, v, now);
    PrunedRecordsOk(t, u);
    FreshRecordOk(u.defaultValidators, u.defaultTotalPower);
    if HasVote(u, v) && v.height > u.committedHeight {
      var rd := if KeyOf(v) in u.rounds then u.rounds[KeyOf(v)]
        else NewRoundData(u.defaultValidators, u.defaultTotalPower);
      if v.addr !in rd.seen {
        CountedRecordOk(rd, v.addr, v.hash);
        FlagsKeepRecordOk(AddVote(rd, v.addr, v.hash), AddVote(rd, v.addr, v.hash).(detected := true));
      }
    }
  }

  lemma CommitRecordsOk(t: TrackerState, h: int, hash: string, now: int)
    requires ArchiveOk(t) && RecordsOk(t)
    ensures RecordsOk(ResolveCommit(t, h, hash, now))
  {
    hide ArchiveOk, ArchiveCommit, OnlyPruned, RecordOk, RosterTotal, ResolvedReports;
    var u := ArchiveCommit(t, h, hash, now);
    ArchiveCommitPrunes(t, h, hash, now);
    PrunedRecordsOk(t, u);
    forall k | k in u.rounds ensures RecordOk(Close(u.rounds[k], k, h, hash)) {
      FlagsKeepRecordOk(u.rounds[k], Close(u.rounds[k], k, h, hash));
    }
  }

  lemma SeedRecordsOk(t: TrackerState, vs: Listing)
    requires RecordsOk(t) && Weighted(OpSetValidators(vs))
    ensures RecordsOk(SetValidators(t, vs))
  {
    hide RecordOk, RosterTotal, Reweigh, RosterOf, TotalOf, Backfill;
    ListingTotal(vs);
    forall k | k in t.rounds ensures RecordOk(Reweigh(t.rounds[k], RosterOf(vs), TotalOf(vs))) {
      SeededRecordOk(t.rounds[k], RosterOf(vs), TotalOf(vs));
    }
  }

  lemma MarkRecordsOk(t: TrackerState, h: int, r: int)
    requires RecordsOk(t)
    ensures RecordsOk(MarkRoundAdvanced(t, h, r))
  {
    hide RecordOk, RosterTotal;
    forall k | k in t.rounds ensures RecordOk(t.rounds[k].(advanced := true)) {
      FlagsKeepRecordOk(t.rounds[k], t.rounds[k].(advanced := true));
    }
  }

  lemma StepRecordsOk(t: TrackerState, e: Timed)
    requires ArchiveOk(t) && RecordsOk(t) && Weighted(e.op)
    ensures RecordsOk(Step(t, e))
  {
    hide ArchiveOk, RecordsOk, SetValidators, ObserveRound, ObserveVote, IngestVote, MarkRoundAdvanced, ResolveCommit,
      OnlyPruned;
    match e.op
    case OpSetValidators(vs) => SeedRecordsOk(t, vs);
    case OpObserveRound(h, r, proposer) =>
      ObserveRoundPrunes(t, h, r, proposer, e.now);
      PrunedRecordsOk(t, ObserveRound(t, h, r, proposer, e.now));
    case OpObserveVote(v) =>
      ObserveVotePrunes(t, v, e.now);
      PrunedRecordsOk(t, ObserveVote(t, v, e.now));
    case OpIngestVote(v) => IngestRecordsOk(t, v, e.now);
    case OpMarkRoundAdvanced(h, r) => MarkRecordsOk(t, h, r);
    case OpResolveCommit(h, hash) => CommitRecordsOk(t, h, hash, e.now);
  }

  lemma NewRecordsOk(cfg: Config)
    ensures RecordsOk(NewTracker(cfg))
  {
  }

  lemma {:induction false} RunRecordsOk(cfg: Config, run: seq<Timed>)
    requires WeightedRun(run)
    ensures RecordsOk(Run(cfg, run))
  {
    hide ArchiveOk, RecordsOk, Step, Weighted;
    if run == [] {
      NewRecordsOk(cfg);
    } else {
      RunRecordsOk(cfg, run[..|run| - 1]);
      RunOk(cfg, run[..|run| - 1]);
      StepRecordsOk(Run(cfg, run[..|run| - 1]), run[|run| - 1]);
    }
  }

  /**
   In every reachable state each record's groups partition its voters, group powers add up to the voted
   power, that is the summed weight of the voters, and it never exceeds the total voting power.
   */
  lemma VotedPowerIsConserved(cfg: Config, run: seq<Timed>, k: Key)
    requires WeightedRun(run) && k in Run(cfg, run).rounds
    ensures var rd := Run(cfg, run).rounds[k];
      && Partition(rd.groups, rd.seen)
      && rd.totalVotedPower == Sum(rd.groups.Keys, GroupPowers(rd.groups))
      && rd.totalVotedPower == Sum(rd.seen, Weigh(rd.validators))
      && 0 <= rd.totalVotedPower <= rd.totalVotingPower
  {
    RunRecordsOk(cfg, run);
    hide Run, Partition;
    assert RecordOk(Run(cfg, run).rounds[k]);
    VotedAtMostTotal(Run(cfg, run).rounds[k]);
  }

  // ---------- the verdict over runs ----------

  /** The context of k is past: no record for it can be created any more. */
  ghost predicate Past(t: TrackerState, k: Key) { k.height <= t.committedHeight || Dead(t, k.height, k.round) }

  /** k is divergent as long as it is tracked, and once it is dropped it stays dropped. */
  ghost predicate StillSplit(t: TrackerState, k: Key)
  {
    if k in t.rounds then Split(t.rounds[k], t.cfg.thresholdPct) else Past(t, k)
  }

  lemma SplitKept(rd: RoundData, rd2: RoundData, threshold: real)
    requires Split(rd, threshold) && rd2.groups == rd.groups && rd2.totalVotingPower == rd.totalVotingPower
    ensures Split(rd2, threshold)
  {
    var h, k :| h != k && Over(rd, h, threshold) && Over(rd, k, threshold);
    assert Over(rd2, h, threshold) && Over(rd2, k, threshold);
  }

  lemma SplitGrows(rd: RoundData, a: string, hash: string, threshold: real)
    requires Split(rd, threshold) && NonNegative(rd.validators)
    ensures Split(AddVote(rd, a, hash), threshold)
  {
    var h, k :| h != k && Over(rd, h, threshold) && Over(rd, k, threshold);
    OverStays(rd, a, hash, h, threshold);
    OverStays(rd, a, hash, k, threshold);
    assert Over(AddVote(rd, a, hash), h, threshold) && Over(AddVote(rd, a, hash), k, threshold);
  }

  lemma SplitSeeded(rd: RoundData, m: Roster, total: int, threshold: real)
    requires RecordOk(rd) && Split(rd, threshold)
    ensures Reweigh(rd, m, total) == rd
  {
    hide Split;
    VerdictIsSplit(rd, Key(0, 0, Prevote), threshold);
    SeedingKeepsVerdict(rd, m, total, Key(0, 0, Prevote), threshold);
  }

  lemma PastStays(t: TrackerState, u: TrackerState, k: Key)
    requires Ages(t, u) && Past(t, k)
    ensures Past(u, k)
  {
    if Dead(t, k.height, k.round) { DeadStaysDead(t, u, k.height, k.round); }
  }

  /** Only IngestVote creates records, and never for a past context. */
  lemma NewRecordIsNotPast(t: TrackerState, v: VoteEvent, now: int, k: Key)
    requires ArchiveOk(t) && k !in t.rounds && k in IngestVote(t, v, now).tracker.rounds
    ensures !Past(t, k)
  {
    hide ObserveVote, ArchiveOk, ReportOf, Fires, AddVote, Dead;
    ObserveVotePrunes(t, v, now);
    TriggerWasAlive(t, v, now);
  }

  /** What a step does to the record of k, if it keeps it. */
  ghost predicate RecordStep(t: TrackerState, u: TrackerState, k: Key)
  {
    && (k in t.rounds && k in u.rounds && Split(t.rounds[k], t.cfg.thresholdPct)
      ==> Split(u.rounds[k], t.cfg.thresholdPct))
    && (k in t.rounds && k !in u.rounds ==> Past(u, k))
    && (k !in t.rounds && k in u.rounds ==> !Past(t, k))
  }

  lemma PrunedStep(t: TrackerState, u: TrackerState, k: Key)
    requires ArchiveOk(t) && OnlyPruned(t, u) && Ages(t, u)
    ensures RecordStep(t, u, k)
  {
    if k in t.rounds && k !in u.rounds {
      DetectorIsArchived(t, k);
      LostIsDead(t, u, k.height, k.round);
    }
  }

  /** What IngestVote makes of a record that survived the observation. */
  ghost predicate Counted(rd: RoundData, rd2: RoundData, v: VoteEvent)
  {
    && rd2.totalVotingPower == rd.totalVotingPower
    && (rd2.groups == rd.groups || rd2.groups == AddVote(rd, v.addr, v.hash).groups)
  }

  lemma IngestCounts(t: TrackerState, v: VoteEvent, now: int, k: Key)
    requires k in ObserveVote(t, v, now).rounds
    ensures k in IngestVote(t, v, now).tracker.rounds
    ensures Counted(ObserveVote(t, v, now).rounds[k], IngestVote(t, v, now).tracker.rounds[k], v)
  {
    hide ObserveVote, ReportOf, Fires, HasVote;
  }

  /** A record the observation dropped is not created anew by the same call. */
  lemma IngestDropped(t: TrackerState, v: VoteEvent, now: int, k: Key)
    requires k in t.rounds && k !in ObserveVote(t, v, now).rounds && OnlyPruned(t, ObserveVote(t, v, now))
    ensures k !in IngestVote(t, v, now).tracker.rounds
  {
    hide ObserveVote, ReportOf, Fires, AddVote;
  }

  lemma IngestKeepsArchive(t: TrackerState, v: VoteEvent, now: int)
    ensures var u, w := ObserveVote(t, v, now), IngestVote(t, v, now).tracker;
      w.archive == u.archive && w.archiveEvictedThrough == u.archiveEvictedThrough
        && w.committedHeight == u.committedHeight
  {
    hide ObserveVote, ReportOf, Fires, AddVote, HasVote;
  }

  lemma CountedSplit(rd: RoundData, rd2: RoundData, v: VoteEvent, threshold: real)
    requires Counted(rd, rd2, v) && Split(rd, threshold) && NonNegative(rd.validators)
    ensures Split(rd2, threshold)
  {
    AddVoteValidators(rd, v.addr, v.hash);
    hide Split, AddVote;
    SplitGrows(rd, v.addr, v.hash, threshold);
    if rd2.groups == rd.groups {
      SplitKept(rd, rd2, threshold);
    } else {
      SplitKept(AddVote(rd, v.addr, v.hash), rd2, threshold);
    }
  }

  lemma PastSame(u: TrackerState, w: TrackerState, k: Key)
    requires Past(u, k) && w.archive == u.archive && w.archiveEvictedThrough == u.archiveEvictedThrough
      && w.committedHeight >= u.committedHeight
    ensures Past(w, k)
  {
  }

  lemma IngestStep(t: TrackerState, v: VoteEvent, now: int, k: Key)
    requires ArchiveOk(t) && RecordsOk(t)
    ensures RecordStep(t, IngestVote(t, v, now).tracker, k)
  {
    var u, w := ObserveVote(t, v, now), IngestVote(t, v, now).tracker;
    assert k in t.rounds ==> NonNegative(t.rounds[k].validators) by {
      if k in t.rounds { assert RecordOk(t.rounds[k]); }
    }
    ObserveVotePrunes(t, v, now);
    ObserveVoteEvolves(t, v, now);
    EvolvesOk(t, u);
    PrunedStep(t, u, k);
    IngestKeepsArchive(t, v, now);
    assert k in u.rounds ==> k in t.rounds && u.rounds[k] == t.rounds[k];
    hide ArchiveOk, RecordsOk, ObserveVote, IngestVote, Past, Split, Ages, Evolves, OnlyPruned, Counted;
    if k in u.rounds {
      IngestCounts(t, v, now, k);
      if Split(t.rounds[k], t.cfg.thresholdPct) { CountedSplit(u.rounds[k], w.rounds[k], v, t.cfg.thresholdPct); }
    } else if k in t.rounds {
      IngestDropped(t, v, now, k);
      PastSame(u, w, k);
    } else if k in w.rounds {
      NewRecordIsNotPast(t, v, now, k);
    }
  }

  lemma SeedStep(t: TrackerState, vs: Listing, k: Key)
    requires RecordsOk(t)
    ensures RecordStep(t, SetValidators(t, vs), k)
  {
    hide Split, Backfill, RosterOf, TotalOf, Past, Reweigh;
    if k in t.rounds && Split(t.rounds[k], t.cfg.thresholdPct) {
      SplitSeeded(t.rounds[k], RosterOf(vs), TotalOf(vs), t.cfg.thresholdPct);
    }
  }

  lemma CommitCloses(t: TrackerState, h: int, hash: string, now: int, k: Key)
    requires 1 <= ArchiveCommit(t, h, hash, now).cfg.historySize
    ensures var u, w := ArchiveCommit(t, h, hash, now), ResolveCommit(t, h, hash, now);
      && w.archive == u.archive && w.archiveEvictedThrough == u.archiveEvictedThrough
      && w.committedHeight >= u.committedHeight && w.committedHeight >= h
      && (k in w.rounds ==>
        k in u.rounds && w.rounds[k].groups == u.rounds[k].groups
        && w.rounds[k].totalVotingPower == u.rounds[k].totalVotingPower)
      && (k in u.rounds && k !in w.rounds ==> k.height < h)
  {
    hide ArchiveCommit, ResolvedReports;
  }

  lemma CommitStep(t: TrackerState, h: int, hash: string, now: int, k: Key)
    requires ArchiveOk(t)
    ensures RecordStep(t, ResolveCommit(t, h, hash, now), k)
  {
    var u, w := ArchiveCommit(t, h, hash, now), ResolveCommit(t, h, hash, now);
    ArchiveCommitPrunes(t, h, hash, now);
    ArchiveCommitEvolves(t, h, hash, now);
    EvolvesOk(t, u);
    CommitKeepsSize(t, h, hash, now);
    PrunedStep(t, u, k);
    CommitCloses(t, h, hash, now, k);
    assert k in u.rounds ==> k in t.rounds && u.rounds[k] == t.rounds[k];
    hide ArchiveOk, ArchiveCommit, ResolveCommit, Ages, Evolves, Split, OnlyPruned, Dead;
    if k in t.rounds && k in w.rounds && Split(t.rounds[k], t.cfg.thresholdPct) {
      SplitKept(u.rounds[k], w.rounds[k], t.cfg.thresholdPct);
    } else if k in t.rounds && k !in u.rounds {
      PastSame(u, w, k);
    }
  }

  lemma MarkStep(t: TrackerState, h: int, r: int, k: Key)
    ensures RecordStep(t, MarkRoundAdvanced(t, h, r), k)
  {
    hide Split, Past;
    if k in t.rounds && Split(t.rounds[k], t.cfg.thresholdPct) {
      SplitKept(t.rounds[k], MarkRoundAdvanced(t, h, r).rounds[k], t.cfg.thresholdPct);
    }
  }

  lemma StepRecord(t: TrackerState, e: Timed, k: Key)
    requires ArchiveOk(t) && RecordsOk(t)
    ensures RecordStep(t, Step(t, e), k)
  {
    StepEvolves(t, e);
    EvolvesOk(t, Step(t, e));
    assert Step(t, e) == match e.op
      case OpSetValidators(vs) => SetValidators(t, vs)
      case OpObserveRound(h, r, proposer) => ObserveRound(t, h, r, proposer, e.now)
      case OpObserveVote(v) => ObserveVote(t, v, e.now)
      case OpIngestVote(v) => IngestVote(t, v, e.now).tracker
      case OpMarkRoundAdvanced(h, r) => MarkRoundAdvanced(t, h, r)
      case OpResolveCommit(h, hash) => ResolveCommit(t, h, hash, e.now);
    hide *;
    match e.op
    case OpSetValidators(vs) => SeedStep(t, vs, k);
    case OpObserveRound(h, r, proposer) =>
      ObserveRoundPrunes(t, h, r, proposer, e.now);
      PrunedStep(t, Step(t, e), k);
    case OpObserveVote(v) =>
      ObserveVotePrunes(t, v, e.now);
      PrunedStep(t, Step(t, e), k);
    case OpIngestVote(v) => IngestStep(t, v, e.now, k);
    case OpMarkRoundAdvanced(h, r) => MarkStep(t, h, r, k);
    case OpResolveCommit(h, hash) => CommitStep(t, h, hash, e.now, k);
  }

  lemma StepKeepsSplit(t: TrackerState, e: Timed, k: Key)
    requires ArchiveOk(t) && RecordsOk(t) && StillSplit(t, k)
    ensures StillSplit(Step(t, e), k)
  {
    StepRecord(t, e, k);
    StepEvolves(t, e);
    EvolvesOk(t, Step(t, e));
    assert Step(t, e).cfg == t.cfg;
    hide ArchiveOk, RecordsOk, Step, Split, Past, Evolves, Ages;
    if Past(t, k) { PastStays(t, Step(t, e), k); }
  }

  lemma {:induction false} RunKeepsSplit(t: TrackerState, run: seq<Timed>, k: Key)
    requires ArchiveOk(t) && RecordsOk(t) && StillSplit(t, k) && WeightedRun(run)
    ensures StillSplit(After(t, run), k) && RecordsOk(After(t, run))
  {
    hide ArchiveOk, RecordsOk, StillSplit, Step, Later, Weighted;
    if run != [] {
      var before := After(t, run[..|run| - 1]);
      RunKeepsSplit(t, run[..|run| - 1], k);
      RunIsLater(t, run[..|run| - 1]);
      LaterOk(t, before);
      StepKeepsSplit(before, run[|run| - 1], k);
      StepRecordsOk(before, run[|run| - 1]);
    }
  }

  /** Once a tracked key is divergent, every later report on it is divergent too. */
  lemma DivergenceIsForever(cfg: Config, run: seq<Timed>, more: seq<Timed>, k: Key)
    requires WeightedRun(run + more)
    requires k in Run(cfg, run).rounds && k in Run(cfg, run + more).rounds
    requires ReportOf(Run(cfg, run).rounds[k], k, Run(cfg, run).cfg.thresholdPct).isDivergent
    ensures ReportOf(Run(cfg, run + more).rounds[k], k, Run(cfg, run + more).cfg.thresholdPct).isDivergent
  {
    var t, u := Run(cfg, run), Run(cfg, run + more);
    assert WeightedRun(run) by { assert forall i :: 0 <= i < |run| ==> (run + more)[i] == run[i]; }
    assert WeightedRun(more) by { assert forall i :: 0 <= i < |more| ==> (run + more)[|run| + i] == more[i]; }
    RunOk(cfg, run);
    RunRecordsOk(cfg, run);
    AfterAppend(NewTracker(cfg), run, more);
    assert u == After(t, more);
    VerdictIsSplit(t.rounds[k], k, t.cfg.thresholdPct);
    VerdictIsSplit(u.rounds[k], k, u.cfg.thresholdPct);
    hide Run, ArchiveOk, RecordsOk, ReportOf, Split;
    RunKeepsSplit(t, more, k);
  }
}
