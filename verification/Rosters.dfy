/**
 Over whole runs: which roster a retained round and a tracked record are judged by, and which votes a record has
 counted.
 */
module Rosters {
  import opened Common
  import opened TrackerTypes
  import opened Archive
  import opened Detector
  import opened Tracker
  import opened TrackerRuns
  import opened Provenance
  import opened Incidents
  import Conservation

  // ---------- the roster of a listing ----------

  /** Entry i of the listing is the last one for its address. */
  ghost predicate LastListed(vs: Listing, i: nat)
    requires i < |vs|
  {
    forall j :: i < j < |vs| ==> vs[j].0 != vs[i].0
  }

  /** The roster knows exactly the listed addresses, each as it was listed last. */
  lemma {:induction false} RosterListsLast(vs: Listing)
    ensures forall a :: a in RosterOf(vs) <==> exists i :: 0 <= i < |vs| && vs[i].0 == a
    ensures forall i ::
      0 <= i < |vs| && LastListed(vs, i) ==> vs[i].0 in RosterOf(vs) && RosterOf(vs)[vs[i].0] == vs[i].1
  {
    if vs != [] {
      var front, n := vs[..|vs| - 1], |vs| - 1;
      RosterListsLast(front);
      assert vs == front + [vs[n]];
      forall i | 0 <= i < |vs| && LastListed(vs, i)
        ensures vs[i].0 in RosterOf(vs) && RosterOf(vs)[vs[i].0] == vs[i].1
      {
        if i < n { assert vs[n].0 != vs[i].0 && LastListed(front, i); }
      }
    }
  }

  /** Listed without repetition, the powers of the roster add up to the total. */
  lemma {:induction false} TotalIsRosterPower(vs: Listing)
    requires forall i, j :: 0 <= i < j < |vs| ==> vs[i].0 != vs[j].0
    ensures TotalOf(vs) == Sum(RosterOf(vs).Keys, Weigh(RosterOf(vs)))
  {
    if vs != [] {
      var front, last := vs[..|vs| - 1], vs[|vs| - 1];
      TotalIsRosterPower(front);
      RosterListsLast(front);
      var m := RosterOf(front);
      assert last.0 !in m;
      assert RosterOf(vs).Keys == m.Keys + {last.0};
      SumInsert(m.Keys, Weigh(RosterOf(vs)), last.0);
      SumAgree(m.Keys, Weigh(RosterOf(vs)), Weigh(m));
    }
  }

  // ---------- the default roster ----------

  /** The roster and the total of the last SetValidators of the run, if there was one. */
  function LastRoster(run: seq<Timed>): (Roster, int)
  {
    if run == [] then (map[], 0)
    else
      var last := run[|run| - 1].op;
      if last.OpSetValidators? then (RosterOf(last.vs), TotalOf(last.vs)) else LastRoster(run[..|run| - 1])
  }

  lemma StepDefaults(t: TrackerState, e: Timed)
    requires ArchiveOk(t)
    ensures var u := Step(t, e);
      (u.defaultValidators, u.defaultTotalPower)
        == if e.op.OpSetValidators? then (RosterOf(e.op.vs), TotalOf(e.op.vs))
        else (t.defaultValidators, t.defaultTotalPower)
  {
    hide ArchiveOk, ObserveRound, ObserveVote, ResolveCommit, IngestVote;
    match e.op
    case OpSetValidators(vs) =>
    case OpObserveRound(h, r, proposer) => ObserveRoundPrunes(t, h, r, proposer, e.now);
    case OpObserveVote(v) => ObserveVotePrunes(t, v, e.now);
    case OpIngestVote(v) =>
      ObserveVotePrunes(t, v, e.now);
      IngestedDefaults(t, v, e.now);
    case OpMarkRoundAdvanced(h, r) =>
    case OpResolveCommit(h, hash) =>
      ArchiveCommitPrunes(t, h, hash, e.now);
      ResolvedDefaults(t, h, hash, e.now);
  }

  lemma IngestedDefaults(t: TrackerState, v: VoteEvent, now: int)
    ensures var u, w := ObserveVote(t, v, now), IngestVote(t, v, now).tracker; w == u.(rounds := w.rounds)
  {
    hide ObserveVote, HasVote, ReportOf, Fires, AddVote;
  }

  lemma ResolvedDefaults(t: TrackerState, h: int, hash: string, now: int)
    ensures var u, w := ArchiveCommit(t, h, hash, now), ResolveCommit(t, h, hash, now);
      w.defaultValidators == u.defaultValidators && w.defaultTotalPower == u.defaultTotalPower
  {
    hide ArchiveCommit, ResolvedReports;
  }

  lemma {:induction false} DefaultsAreLast(cfg: Config, run: seq<Timed>)
    ensures (Run(cfg, run).defaultValidators, Run(cfg, run).defaultTotalPower) == LastRoster(run)
  {
    hide ArchiveOk, Step;
    if run != [] {
      DefaultsAreLast(cfg, run[..|run| - 1]);
      RunOk(cfg, run[..|run| - 1]);
      StepDefaults(Run(cfg, run[..|run| - 1]), run[|run| - 1]);
    }
  }

  // ---------- archived rounds ----------

  /** Call i of the run started round r of h. */
  ghost predicate StartedAt(cfg: Config, run: seq<Timed>, i: nat, h: int, r: int)
    requires i < |run|
  {
    !Run(cfg, run[..i]).Retained(h, r) && Run(cfg, run[..i + 1]).Retained(h, r)
  }

  /** The last roster before call i or, if that is empty, the first nonempty one from then on. */
  function RosterSince(run: seq<Timed>, i: nat): Roster
    requires i <= |run|
  {
    if |run| == i then LastRoster(run).0 else
      var before, last := RosterSince(run[..|run| - 1], i), run[|run| - 1].op;
      if |before| == 0 && last.OpSetValidators? then RosterOf(last.vs) else before
  }

  lemma RetainedAt(cfg: Config, run: seq<Timed>, i: nat, j: nat, h: int, r: int)
    requires i <= j <= |run| && Run(cfg, run[..i]).Retained(h, r) && Run(cfg, run).Retained(h, r)
    ensures Run(cfg, run[..j]).Retained(h, r)
  {
    hide Run, Dead;
    var a, b, c := run[..i], run[i..j], run[j..];
    assert a + b == run[..j] && a + b + c == run;
    NoResurrection(cfg, a, b, c, h, r);
  }

  lemma RunSnoc(cfg: Config, run: seq<Timed>)
    requires run != []
    ensures Run(cfg, run) == Step(Run(cfg, run[..|run| - 1]), run[|run| - 1]) && ArchiveOk(Run(cfg, run[..|run| - 1]))
  {
    RunOk(cfg, run[..|run| - 1]);
    hide Step, ArchiveOk;
  }

  /** What the last call of a run makes of the roster of a round it leaves retained. */
  lemma LastCallOnRoster(cfg: Config, run: seq<Timed>, h: int, r: int)
    requires run != [] && Run(cfg, run).Retained(h, r)
    ensures var t, e, rd := Run(cfg, run[..|run| - 1]), run[|run| - 1], Run(cfg, run).archive[h].rounds[r];
      var before := if t.Retained(h, r) then t.archive[h].rounds[r].roster else LastRoster(run[..|run| - 1]).0;
      && rd.roster == (if |before| == 0 && e.op.OpSetValidators? then RosterOf(e.op.vs) else before)
      && rd.firstSeen == (if t.Retained(h, r) then t.archive[h].rounds[r].firstSeen else e.now)
  {
    RunSnoc(cfg, run);
    StepFollows(Run(cfg, run[..|run| - 1]), run[|run| - 1], h, r);
    DefaultsAreLast(cfg, run[..|run| - 1]);
    hide Run, Step, ArchiveOk, Listed, SameListing, Extends, LastRoster;
  }

  lemma RosterSinceNow(run: seq<Timed>, i: nat)
    requires i < |run|
    ensures var front, last := run[..|run| - 1], run[|run| - 1].op;
      var before := if i == |front| then LastRoster(front).0 else RosterSince(front, i);
      RosterSince(run, i) == if |before| == 0 && last.OpSetValidators? then RosterOf(last.vs) else before
  {
  }

  /**
   A retained round that call i started has the roster of the last SetValidators before the call or, if that was empty
   or missing, the first nonempty one after; it was first seen at the clock reading of the call.
   */
  lemma {:induction false} RoundKeepsFirstRoster(cfg: Config, run: seq<Timed>, i: nat, h: int, r: int)
    requires i < |run| && StartedAt(cfg, run, i, h, r) && Run(cfg, run).Retained(h, r)
    ensures var rd := Run(cfg, run).archive[h].rounds[r]; rd.roster == RosterSince(run, i) && rd.firstSeen == run[i].now
  {
    hide Run, RosterSince, LastRoster;
    var front := run[..|run| - 1];
    LastCallOnRoster(cfg, run, h, r);
    RosterSinceNow(run, i);
    if i == |front| {
      assert front == run[..i] && run[..i + 1] == run;
    } else {
      assert run[..i + 1] == front[..i + 1] && run[..i] == front[..i];
      RetainedAt(cfg, run, i + 1, |front|, h, r);
      RoundKeepsFirstRoster(cfg, front, i, h, r);
    }
  }

  lemma StartedEarlier(cfg: Config, run: seq<Timed>, front: seq<Timed>, i: nat, h: int, r: int)
    requires i < |front| && front <= run
    ensures StartedAt(cfg, front, i, h, r) == StartedAt(cfg, run, i, h, r)
  {
    assert run[..i + 1] == front[..i + 1] && run[..i] == front[..i];
    hide Run;
  }

  lemma NewIsEmpty(cfg: Config)
    ensures Run(cfg, []) == NewTracker(cfg)
    ensures forall h, r :: !NewTracker(cfg).Retained(h, r)
  {
  }

  /** Every retained round was started by a call of the run. */
  lemma {:induction false} SomeCallStarted(cfg: Config, run: seq<Timed>, h: int, r: int)
    requires Run(cfg, run).Retained(h, r)
    ensures exists i :: 0 <= i < |run| && StartedAt(cfg, run, i, h, r)
  {
    hide Run, NewTracker;
    NewIsEmpty(cfg);
    var front := run[..|run| - 1];
    assert run[..|front|] == front && run[..|front| + 1] == run;
    if Run(cfg, front).Retained(h, r) {
      SomeCallStarted(cfg, front, h, r);
      var i :| 0 <= i < |front| && StartedAt(cfg, front, i, h, r);
      StartedEarlier(cfg, run, front, i, h, r);
    } else {
      assert StartedAt(cfg, run, |front|, h, r);
    }
  }

  /** A round that has a roster keeps it as long as it is retained. */
  lemma {:induction false} RosterStays(cfg: Config, run: seq<Timed>, more: seq<Timed>, h: int, r: int)
    requires Run(cfg, run).Retained(h, r) && Run(cfg, run + more).Retained(h, r)
    requires |Run(cfg, run).archive[h].rounds[r].roster| > 0
    ensures Run(cfg, run + more).archive[h].rounds[r].roster == Run(cfg, run).archive[h].rounds[r].roster
    decreases |more|
  {
    hide Run;
    if more == [] {
      assert run + more == run;
    } else {
      var front, all := run + more[..|more| - 1], run + more;
      assert all[..|all| - 1] == front && all[..|run|] == run && all[..|front|] == front;
      RetainedAt(cfg, all, |run|, |front|, h, r);
      RosterStays(cfg, run, more[..|more| - 1], h, r);
      LastCallOnRoster(cfg, all, h, r);
    }
  }

  // ---------- tracked records ----------

  /** What a step does to the roster and the total of the record of k, if it leaves one. */
  ghost predicate WeightsStep(t: TrackerState, u: TrackerState, op: Op, k: Key)
  {
    k in u.rounds ==>
      var before := if k in t.rounds then (t.rounds[k].validators, t.rounds[k].totalVotingPower)
        else (t.defaultValidators, t.defaultTotalPower);
      (u.rounds[k].validators, u.rounds[k].totalVotingPower)
        == if before.1 == 0 && op.OpSetValidators? then (RosterOf(op.vs), TotalOf(op.vs)) else before
  }

  lemma PrunedWeights(t: TrackerState, u: TrackerState, op: Op, k: Key)
    requires OnlyPruned(t, u) && !op.OpSetValidators?
    ensures WeightsStep(t, u, op, k)
  {
  }

  lemma CountedWeights(t: TrackerState, u: TrackerState, x: Ingested, v: VoteEvent, k: Key)
    requires OnlyPruned(t, u) && (Incidents.Counts(u, v, x) || x.tracker == u)
    requires k in t.rounds && k !in u.rounds ==> k !in x.tracker.rounds
    ensures WeightsStep(t, x.tracker, OpIngestVote(v), k)
  {
    hide ReportOf;
  }

  lemma IngestWeights(t: TrackerState, v: VoteEvent, now: int, k: Key)
    requires ArchiveOk(t)
    ensures WeightsStep(t, IngestVote(t, v, now).tracker, OpIngestVote(v), k)
  {
    hide *;
    ObserveVotePrunes(t, v, now);
    IngestCountsFirstVotes(t, v, now);
    NotDropped(t, v, now, k);
    CountedWeights(t, ObserveVote(t, v, now), IngestVote(t, v, now), v, k);
  }

  lemma NotDropped(t: TrackerState, v: VoteEvent, now: int, k: Key)
    requires ArchiveOk(t)
    ensures k in t.rounds && k !in ObserveVote(t, v, now).rounds ==> k !in IngestVote(t, v, now).tracker.rounds
  {
    ObserveVotePrunes(t, v, now);
    hide ArchiveOk, ObserveVote, IngestVote, OnlyPruned;
    if k in t.rounds && k !in ObserveVote(t, v, now).rounds { Conservation.IngestDropped(t, v, now, k); }
  }

  /** What a commit leaves of a record: the weights and the groups. */
  lemma CommitKeepsRecord(t: TrackerState, h: int, hash: string, now: int, k: Key)
    requires ArchiveOk(t) && k in ResolveCommit(t, h, hash, now).rounds
    ensures k in t.rounds && ClosedBy(t.rounds[k], ResolveCommit(t, h, hash, now).rounds[k], k, h, hash)
  {
    CommitResolves(t, h, hash, now);
    hide ArchiveOk, ResolveCommit, ResolvedReports, CommitArchive, Resolves, ClosedBy;
  }

  lemma CommitWeights(t: TrackerState, h: int, hash: string, now: int, k: Key)
    requires ArchiveOk(t)
    ensures WeightsStep(t, ResolveCommit(t, h, hash, now), OpResolveCommit(h, hash), k)
  {
    hide ArchiveOk, ResolveCommit;
    if k in ResolveCommit(t, h, hash, now).rounds { CommitKeepsRecord(t, h, hash, now, k); }
  }

  lemma SeedWeights(t: TrackerState, vs: Listing, k: Key)
    ensures WeightsStep(t, SetValidators(t, vs), OpSetValidators(vs), k)
  {
    hide Backfill, RosterOf, TotalOf;
  }

  lemma MarkWeights(t: TrackerState, h: int, r: int, k: Key)
    ensures WeightsStep(t, MarkRoundAdvanced(t, h, r), OpMarkRoundAdvanced(h, r), k)
  {
  }

  lemma StepWeights(t: TrackerState, e: Timed, k: Key)
    requires ArchiveOk(t)
    ensures WeightsStep(t, Step(t, e), e.op, k)
  {
    hide ArchiveOk, WeightsStep, SetValidators, ObserveRound, ObserveVote, IngestVote, MarkRoundAdvanced, ResolveCommit,
      OnlyPruned;
    match e.op
    case OpSetValidators(vs) => SeedWeights(t, vs, k);
    case OpObserveRound(h, r, proposer) =>
      ObserveRoundPrunes(t, h, r, proposer, e.now);
      PrunedWeights(t, Step(t, e), e.op, k);
    case OpObserveVote(v) =>
      ObserveVotePrunes(t, v, e.now);
      PrunedWeights(t, Step(t, e), e.op, k);
    case OpIngestVote(v) => IngestWeights(t, v, e.now, k);
    case OpMarkRoundAdvanced(h, r) => MarkWeights(t, h, r, k);
    case OpResolveCommit(h, hash) => CommitWeights(t, h, hash, e.now, k);
  }

  /** Call i of the run started the record of k. */
  ghost predicate TrackedAt(cfg: Config, run: seq<Timed>, i: nat, k: Key)
    requires i < |run|
  {
    k !in Run(cfg, run[..i]).rounds && k in Run(cfg, run[..i + 1]).rounds
  }

  /** The last roster and total before call i or, if that total is 0, the first with another total from then on. */
  function WeightsSince(run: seq<Timed>, i: nat): (Roster, int)
    requires i <= |run|
  {
    if |run| == i then LastRoster(run) else
      var before, last := WeightsSince(run[..|run| - 1], i), run[|run| - 1].op;
      if before.1 == 0 && last.OpSetValidators? then (RosterOf(last.vs), TotalOf(last.vs)) else before
  }

  /** k is not tracked and will not be again. */
  ghost predicate Gone(t: TrackerState, k: Key) { k !in t.rounds && Conservation.Past(t, k) }

  lemma StepKeepsGone(t: TrackerState, e: Timed, k: Key)
    requires ArchiveOk(t) && Gone(t, k)
    ensures Gone(Step(t, e), k)
  {
    StepEvolves(t, e);
    EvolvesOk(t, Step(t, e));
    Conservation.PastStays(t, Step(t, e), k);
    hide ArchiveOk, Ages, Evolves, SetValidators, ObserveRound, ObserveVote, IngestVote, MarkRoundAdvanced,
      ResolveCommit,
      Conservation.Past;
    if k in Step(t, e).rounds {
      NewByIngest(t, e, k);
      Conservation.NewRecordIsNotPast(t, e.op.v, e.now, k);
    }
  }

  lemma NewByIngest(t: TrackerState, e: Timed, k: Key)
    requires ArchiveOk(t) && k !in t.rounds && k in Step(t, e).rounds
    ensures e.op.OpIngestVote? && k in IngestVote(t, e.op.v, e.now).tracker.rounds
  {
    hide ArchiveOk, ObserveRound, ObserveVote, ResolveCommit, IngestVote, Reweigh, Backfill, RosterOf, TotalOf;
    match e.op
    case OpSetValidators(vs) =>
    case OpObserveRound(h, r, proposer) => ObserveRoundPrunes(t, h, r, proposer, e.now);
    case OpObserveVote(v) => ObserveVotePrunes(t, v, e.now);
    case OpIngestVote(v) =>
    case OpMarkRoundAdvanced(h, r) =>
    case OpResolveCommit(h, hash) => CommitKeepsRecord(t, h, hash, e.now, k);
  }

  lemma DroppedIsGone(t: TrackerState, e: Timed, k: Key)
    requires ArchiveOk(t) && k in t.rounds && k !in Step(t, e).rounds
    ensures Gone(Step(t, e), k)
  {
    StepSurvives(t, e, k);
    StepEvolves(t, e);
    EvolvesOk(t, Step(t, e));
    KeysAreArchived(t);
    hide ArchiveOk, Ages, Evolves, Step, Dead;
    if !Step(t, e).Retained(k.height, k.round) { LostIsDead(t, Step(t, e), k.height, k.round); }
  }

  lemma TrackedOrGone(cfg: Config, run: seq<Timed>, i: nat, k: Key)
    requires i <= |run| && k in Run(cfg, run[..i]).rounds
    ensures k in Run(cfg, run).rounds || Gone(Run(cfg, run), k)
    decreases |run|
  {
    hide Gone, ArchiveOk, Step, Run;
    if i == |run| {
      assert run[..i] == run;
    } else {
      var front := run[..|run| - 1];
      assert front[..i] == run[..i];
      TrackedOrGone(cfg, front, i, k);
      RunSnoc(cfg, run);
      if k in Run(cfg, front).rounds {
        if k !in Run(cfg, run).rounds { DroppedIsGone(Run(cfg, front), run[|run| - 1], k); }
      } else {
        StepKeepsGone(Run(cfg, front), run[|run| - 1], k);
      }
    }
  }

  /** A record tracked at both ends was tracked just before the last call. */
  lemma TrackedBefore(cfg: Config, run: seq<Timed>, i: nat, k: Key)
    requires i < |run| && k in Run(cfg, run[..i]).rounds && k in Run(cfg, run).rounds
    ensures k in Run(cfg, run[..|run| - 1]).rounds
  {
    var front := run[..|run| - 1];
    assert front[..i] == run[..i];
    TrackedOrGone(cfg, front, i, k);
    RunSnoc(cfg, run);
    hide ArchiveOk, Step, Run, Conservation.Past;
    if k !in Run(cfg, front).rounds { StepKeepsGone(Run(cfg, front), run[|run| - 1], k); }
  }

  lemma LastCallOnWeights(cfg: Config, run: seq<Timed>, k: Key)
    requires run != [] && k in Run(cfg, run).rounds
    ensures var t, e, rd := Run(cfg, run[..|run| - 1]), run[|run| - 1], Run(cfg, run).rounds[k];
      var before := if k in t.rounds then (t.rounds[k].validators, t.rounds[k].totalVotingPower)
        else LastRoster(run[..|run| - 1]);
      (rd.validators, rd.totalVotingPower)
        == if before.1 == 0 && e.op.OpSetValidators? then (RosterOf(e.op.vs), TotalOf(e.op.vs)) else before
  {
    RunSnoc(cfg, run);
    StepWeights(Run(cfg, run[..|run| - 1]), run[|run| - 1], k);
    DefaultsAreLast(cfg, run[..|run| - 1]);
    hide Run, Step, ArchiveOk, LastRoster;
  }

  lemma WeightsSinceNow(run: seq<Timed>, i: nat)
    requires i < |run|
    ensures var front, last := run[..|run| - 1], run[|run| - 1].op;
      var before := if i == |front| then LastRoster(front) else WeightsSince(front, i);
      WeightsSince(run, i)
        == if before.1 == 0 && last.OpSetValidators? then (RosterOf(last.vs), TotalOf(last.vs)) else before
  {
  }

  /**
   A tracked record that call i started weighs votes by the last roster before the call or, if its total was 0, by the
   first one with another total after.
   */
  lemma {:induction false} RecordKeepsFirstWeights(cfg: Config, run: seq<Timed>, i: nat, k: Key)
    requires i < |run| && TrackedAt(cfg, run, i, k) && k in Run(cfg, run).rounds
    ensures var rd := Run(cfg, run).rounds[k]; (rd.validators, rd.totalVotingPower) == WeightsSince(run, i)
  {
    hide Run, WeightsSince, LastRoster;
    var front := run[..|run| - 1];
    LastCallOnWeights(cfg, run, k);
    WeightsSinceNow(run, i);
    if i == |front| {
      assert front == run[..i] && run[..i + 1] == run;
    } else {
      assert run[..i + 1] == front[..i + 1] && run[..i] == front[..i];
      TrackedBefore(cfg, run, i + 1, k);
      RecordKeepsFirstWeights(cfg, front, i, k);
    }
  }

  // ---------- the votes of a record ----------

  function Members(t: TrackerState, k: Key, hash: string): seq<string>
  {
    if k in t.rounds && hash in t.rounds[k].groups then t.rounds[k].groups[hash].validators else []
  }

  /** The call counts a first vote of a for hash in the record of k. */
  ghost predicate CountsFor(t: TrackerState, e: Timed, k: Key, hash: string, a: string)
  {
    && e.op.OpIngestVote? && Key(e.op.v.height, e.op.v.round, e.op.v.kind) == k
    && e.op.v.addr == a && e.op.v.hash == hash && FirstVote(ObserveVote(t, e.op.v, e.now), e.op.v)
  }

  ghost predicate SameMembers(t: TrackerState, u: TrackerState, k: Key, hash: string)
  {
    k in u.rounds ==> Members(u, k, hash) == Members(t, k, hash)
  }

  /** A step adds to the group of a hash the voter whose first vote for it the step counts, and nobody else. */
  ghost predicate MembersStep(t: TrackerState, u: TrackerState, e: Timed, k: Key, hash: string)
  {
    k in u.rounds ==>
      Members(u, k, hash)
        == Members(t, k, hash)
          + if e.op.OpIngestVote? && CountsFor(t, e, k, hash, e.op.v.addr) then [e.op.v.addr] else []
  }

  lemma SameMembersStep(t: TrackerState, u: TrackerState, e: Timed, k: Key, hash: string)
    requires SameMembers(t, u, k, hash) && !e.op.OpIngestVote?
    ensures MembersStep(t, u, e, k, hash)
  {
    hide Members;
    assert Members(t, k, hash) + [] == Members(t, k, hash);
  }

  lemma PrunedMembers(t: TrackerState, u: TrackerState, k: Key, hash: string)
    requires OnlyPruned(t, u)
    ensures SameMembers(t, u, k, hash)
  {
  }

  lemma CountedMembers(u: TrackerState, x: Ingested, e: Timed, k: Key, hash: string)
    requires e.op.OpIngestVote? && Incidents.Counts(u, e.op.v, x)
    ensures k in x.tracker.rounds ==>
      Members(x.tracker, k, hash)
        == Members(u, k, hash)
          + if KeyOf(e.op.v) == k && e.op.v.hash == hash && e.op.v.addr !in OpenRecord(u, k).seen then [e.op.v.addr]
            else []
  {
    hide ReportOf;
  }

  lemma UncountedMembers(t: TrackerState, u: TrackerState, e: Timed, k: Key, hash: string)
    requires e.op.OpIngestVote? && u == ObserveVote(t, e.op.v, e.now) && OnlyPruned(t, u) && !FirstVote(u, e.op.v)
    ensures MembersStep(t, u, e, k, hash)
  {
    PrunedLosesMembers(t, u, k, hash);
    hide OnlyPruned, FirstVote, ObserveVote, Members;
    assert Members(t, k, hash) + [] == Members(t, k, hash);
  }

  lemma AdmittedCounts(t: TrackerState, e: Timed, k: Key, hash: string)
    requires e.op.OpIngestVote?
    requires var u := ObserveVote(t, e.op.v, e.now); HasVote(u, e.op.v) && e.op.v.height > u.committedHeight
    ensures CountsFor(t, e, k, hash, e.op.v.addr) <==>
      KeyOf(e.op.v) == k && e.op.v.hash == hash
      && e.op.v.addr !in OpenRecord(ObserveVote(t, e.op.v, e.now), k).seen
  {
    FirstVoteIsCounted(ObserveVote(t, e.op.v, e.now), e.op.v);
    hide FirstVote, ObserveVote, OpenRecord, HasVote;
  }

  lemma FirstVoteMembers(t: TrackerState, u: TrackerState, x: Ingested, e: Timed, k: Key, hash: string)
    requires e.op.OpIngestVote? && u == ObserveVote(t, e.op.v, e.now) && OnlyPruned(t, u)
    requires Incidents.Counts(u, e.op.v, x) && HasVote(u, e.op.v) && e.op.v.height > u.committedHeight
    requires k in t.rounds && k !in u.rounds ==> k !in x.tracker.rounds
    ensures MembersStep(t, x.tracker, e, k, hash)
  {
    PrunedLosesMembers(t, u, k, hash);
    CountedMembers(u, x, e, k, hash);
    AdmittedCounts(t, e, k, hash);
    LostOrSame(t, u, x.tracker, k);
    hide OnlyPruned, FirstVote, ObserveVote, Members, Incidents.Counts, OpenRecord, HasVote, CountsFor, KeyOf;
  }

  lemma LostOrSame(t: TrackerState, u: TrackerState, w: TrackerState, k: Key)
    requires k in t.rounds && k !in u.rounds ==> k !in w.rounds
    ensures k in w.rounds ==> k in u.rounds || k !in t.rounds
  {
  }

  lemma IngestMembers(t: TrackerState, e: Timed, k: Key, hash: string)
    requires ArchiveOk(t) && e.op.OpIngestVote?
    ensures MembersStep(t, IngestVote(t, e.op.v, e.now).tracker, e, k, hash)
  {
    var v := e.op.v;
    var u := ObserveVote(t, v, e.now);
    FirstVoteIsCounted(u, v);
    hide ArchiveOk, ObserveVote, IngestVote, Incidents.Counts, OnlyPruned, MembersStep, OpenRecord;
    ObserveVotePrunes(t, v, e.now);
    NotDropped(t, v, e.now, k);
    IngestCountsFirstVotes(t, v, e.now);
    if HasVote(u, v) && v.height > u.committedHeight {
      FirstVoteMembers(t, u, IngestVote(t, v, e.now), e, k, hash);
    } else {
      UncountedMembers(t, u, e, k, hash);
    }
  }

  /** A record that was pruned or never there has no members. */
  lemma PrunedLosesMembers(t: TrackerState, u: TrackerState, k: Key, hash: string)
    requires OnlyPruned(t, u)
    ensures k !in t.rounds ==> Members(u, k, hash) == Members(t, k, hash)
    ensures k in u.rounds ==> Members(u, k, hash) == Members(t, k, hash)
  {
  }

  lemma SeedMembers(t: TrackerState, vs: Listing, k: Key, hash: string)
    ensures SameMembers(t, SetValidators(t, vs), k, hash)
  {
    hide Backfill, RosterOf, TotalOf;
  }

  lemma MarkMembers(t: TrackerState, h: int, r: int, k: Key, hash: string)
    ensures SameMembers(t, MarkRoundAdvanced(t, h, r), k, hash)
  {
  }

  lemma CommitMembers(t: TrackerState, h: int, hash: string, now: int, k: Key, group: string)
    requires ArchiveOk(t)
    ensures SameMembers(t, ResolveCommit(t, h, hash, now), k, group)
  {
    hide ArchiveOk, ResolveCommit;
    if k in ResolveCommit(t, h, hash, now).rounds { CommitKeepsRecord(t, h, hash, now, k); }
  }

  lemma StepMembers(t: TrackerState, e: Timed, k: Key, hash: string)
    requires ArchiveOk(t)
    ensures MembersStep(t, Step(t, e), e, k, hash)
  {
    hide ArchiveOk, MembersStep, SameMembers, SetValidators, ObserveRound, ObserveVote, IngestVote, MarkRoundAdvanced,
      ResolveCommit, OnlyPruned;
    match e.op
    case OpSetValidators(vs) =>
      SeedMembers(t, vs, k, hash);
      SameMembersStep(t, Step(t, e), e, k, hash);
    case OpObserveRound(h, r, proposer) =>
      ObserveRoundPrunes(t, h, r, proposer, e.now);
      PrunedMembers(t, Step(t, e), k, hash);
      SameMembersStep(t, Step(t, e), e, k, hash);
    case OpObserveVote(v) =>
      ObserveVotePrunes(t, v, e.now);
      PrunedMembers(t, Step(t, e), k, hash);
      SameMembersStep(t, Step(t, e), e, k, hash);
    case OpIngestVote(v) => IngestMembers(t, e, k, hash);
    case OpMarkRoundAdvanced(h, r) =>
      MarkMembers(t, h, r, k, hash);
      SameMembersStep(t, Step(t, e), e, k, hash);
    case OpResolveCommit(h, committed) =>
      CommitMembers(t, h, committed, e.now, k, hash);
      SameMembersStep(t, Step(t, e), e, k, hash);
  }

  /** Call i of the run counted a first vote of a for hash in the record of k. */
  ghost predicate CountedAt(cfg: Config, run: seq<Timed>, i: nat, k: Key, hash: string, a: string)
    requires i < |run|
  {
    CountsFor(Run(cfg, run[..i]), run[i], k, hash, a)
  }

  ghost predicate SomeCounted(cfg: Config, run: seq<Timed>, k: Key, hash: string, a: string)
  {
    exists i :: 0 <= i < |run| && CountedAt(cfg, run, i, k, hash, a)
  }

  lemma CountedMore(cfg: Config, run: seq<Timed>, k: Key, hash: string, a: string)
    requires run != []
    ensures var front := run[..|run| - 1];
      SomeCounted(cfg, run, k, hash, a) <==>
        SomeCounted(cfg, front, k, hash, a) || CountsFor(Run(cfg, front), run[|run| - 1], k, hash, a)
  {
    hide Run, CountsFor;
    var front, n := run[..|run| - 1], |run| - 1;
    assert run[..n] == front;
    forall i | 0 <= i < n ensures CountedAt(cfg, front, i, k, hash, a) == CountedAt(cfg, run, i, k, hash, a) {
      assert run[..i] == front[..i];
    }
    if SomeCounted(cfg, front, k, hash, a) {
      var i :| 0 <= i < n && CountedAt(cfg, front, i, k, hash, a);
      assert CountedAt(cfg, run, i, k, hash, a);
    }
    if CountsFor(Run(cfg, front), run[n], k, hash, a) { assert CountedAt(cfg, run, n, k, hash, a); }
    if SomeCounted(cfg, run, k, hash, a) {
      var i :| 0 <= i < |run| && CountedAt(cfg, run, i, k, hash, a);
      if i < n { assert CountedAt(cfg, front, i, k, hash, a); }
    }
  }

  lemma FirstVoteMeans(u: TrackerState, v: VoteEvent)
    ensures FirstVote(u, v) ==>
      u.Retained(v.height, v.round) && u.archive[v.height].rounds[v.round].Vote(v.addr, v.kind).Some?
      && v.height > u.committedHeight
  {
  }

  lemma CountedKeyStays(u: TrackerState, v: VoteEvent, x: Ingested)
    requires Incidents.Counts(u, v, x)
    ensures Key(v.height, v.round, v.kind) in x.tracker.rounds
  {
    hide ReportOf, Joins;
  }

  lemma CountingMeans(t: TrackerState, e: Timed, k: Key, hash: string, a: string)
    requires CountsFor(t, e, k, hash, a)
    ensures e.op.OpIngestVote? && Key(e.op.v.height, e.op.v.round, e.op.v.kind) == k
    ensures FirstVote(ObserveVote(t, e.op.v, e.now), e.op.v) && Step(t, e) == IngestVote(t, e.op.v, e.now).tracker
  {
    hide ObserveVote, IngestVote, FirstVote;
  }

  /** A call that counted for k left k tracked. */
  lemma CountingTracks(t: TrackerState, e: Timed, k: Key, hash: string, a: string)
    requires ArchiveOk(t) && CountsFor(t, e, k, hash, a)
    ensures k in Step(t, e).rounds
  {
    hide *;
    CountingMeans(t, e, k, hash, a);
    var u := ObserveVote(t, e.op.v, e.now);
    FirstVoteMeans(u, e.op.v);
    IngestCountsFirstVotes(t, e.op.v, e.now);
    CountedKeyStays(u, e.op.v, IngestVote(t, e.op.v, e.now));
  }

  lemma CountedIsTrackedOrGone(cfg: Config, run: seq<Timed>, k: Key, hash: string, a: string)
    requires SomeCounted(cfg, run, k, hash, a)
    ensures k in Run(cfg, run).rounds || Gone(Run(cfg, run), k)
  {
    hide Run, CountsFor, Gone, ArchiveOk, Step;
    var i :| 0 <= i < |run| && CountedAt(cfg, run, i, k, hash, a);
    RunOk(cfg, run[..i]);
    CountingTracks(Run(cfg, run[..i]), run[i], k, hash, a);
    RunStep(cfg, run, i);
    TrackedOrGone(cfg, run, i + 1, k);
  }

  /**
   As long as a key is tracked, its group of a hash lists exactly the validators of which some call of the run counted
   a first vote for that hash.
   */
  lemma {:induction false} GroupsListCountedVotes(cfg: Config, run: seq<Timed>, k: Key, hash: string, a: string)
    requires k in Run(cfg, run).rounds
    ensures a in Members(Run(cfg, run), k, hash) <==>
      exists i :: 0 <= i < |run| && CountedAt(cfg, run, i, k, hash, a)
  {
    hide Run, CountsFor, Gone, ArchiveOk, Step, Members, NewTracker;
    if run == [] {
      NewTracksNothing(cfg);
    } else {
      var front, e := run[..|run| - 1], run[|run| - 1];
      RunSnoc(cfg, run);
      StepMembers(Run(cfg, front), e, k, hash);
      CountedMore(cfg, run, k, hash, a);
      CountsForOne(Run(cfg, front), e, k, hash, a);
      if k in Run(cfg, front).rounds {
        GroupsListCountedVotes(cfg, front, k, hash, a);
      } else {
        NoMembers(Run(cfg, front), k, hash);
        if SomeCounted(cfg, front, k, hash, a) {
          CountedIsTrackedOrGone(cfg, front, k, hash, a);
          GoneIsNotTracked(Run(cfg, front), e, k);
        }
      }
    }
  }

  lemma NewTracksNothing(cfg: Config)
    ensures Run(cfg, []).rounds == map[]
  {
  }

  lemma CountsForOne(t: TrackerState, e: Timed, k: Key, hash: string, a: string)
    ensures CountsFor(t, e, k, hash, a) <==>
      e.op.OpIngestVote? && e.op.v.addr == a && CountsFor(t, e, k, hash, e.op.v.addr)
  {
    hide FirstVote, ObserveVote;
  }

  lemma NoMembers(t: TrackerState, k: Key, hash: string)
    requires k !in t.rounds
    ensures Members(t, k, hash) == []
  {
  }

  lemma GoneIsNotTracked(t: TrackerState, e: Timed, k: Key)
    requires ArchiveOk(t) && Gone(t, k)
    ensures k !in Step(t, e).rounds
  {
    StepKeepsGone(t, e, k);
    hide ArchiveOk, Step, Conservation.Past;
  }

  // ---------- the names a record shows ----------

  /** The names of the voters that have one, in the order the votes were counted. */
  function NamesOf(voters: seq<string>, m: Roster): seq<string>
  {
    if voters == [] then []
    else
      var last := MonikerIn(m, voters[|voters| - 1]);
      NamesOf(voters[..|voters| - 1], m) + if last == "" then [] else [last]
  }

  lemma {:induction false} SampleIsFirstNames(voters: seq<string>, m: Roster)
    ensures SampleOf(voters, m) == NamesOf(voters, m)[..Min(5, |NamesOf(voters, m)|)]
  {
    if voters != [] { SampleIsFirstNames(voters[..|voters| - 1], m); }
  }

  ghost predicate ShowsNames(rd: RoundData)
  {
    forall h :: h in rd.groups ==> rd.groups[h].monikers == SampleOf(rd.groups[h].validators, rd.validators)
  }

  ghost predicate AllShowNames(t: TrackerState) { forall k :: k in t.rounds ==> ShowsNames(t.rounds[k]) }

  lemma SampleSnoc(voters: seq<string>, a: string, m: Roster)
    ensures SampleOf(voters + [a], m) == SampleMore(SampleOf(voters, m), MonikerIn(m, a))
  {
    assert (voters + [a])[..|voters|] == voters;
  }

  lemma JoiningShowsNames(rd: RoundData, rd2: RoundData, a: string, hash: string)
    requires ShowsNames(rd) && Joins(rd, rd2, a, hash)
    ensures ShowsNames(rd2)
  {
    SampleSnoc(if hash in rd.groups then rd.groups[hash].validators else [], a, rd.validators);
    assert SampleOf([], rd.validators) == [];
    hide SampleOf;
  }

  lemma PrunedShowNames(t: TrackerState, u: TrackerState)
    requires AllShowNames(t) && OnlyPruned(t, u)
    ensures AllShowNames(u)
  {
    hide ShowsNames;
  }

  lemma CountedShowNames(u: TrackerState, v: VoteEvent, x: Ingested)
    requires AllShowNames(u) && Incidents.Counts(u, v, x)
    ensures AllShowNames(x.tracker)
  {
    var k := KeyOf(v);
    assert ShowsNames(OpenRecord(u, k));
    hide ReportOf, Joins, ShowsNames, OpenRecord;
    if v.addr !in OpenRecord(u, k).seen { JoiningShowsNames(OpenRecord(u, k), x.tracker.rounds[k], v.addr, v.hash); }
  }

  lemma IngestShowsNames(t: TrackerState, v: VoteEvent, now: int)
    requires ArchiveOk(t) && AllShowNames(t)
    ensures AllShowNames(IngestVote(t, v, now).tracker)
  {
    ObserveVotePrunes(t, v, now);
    IngestCountsFirstVotes(t, v, now);
    hide ArchiveOk, ObserveVote, IngestVote, AllShowNames, Incidents.Counts, OnlyPruned;
    PrunedShowNames(t, ObserveVote(t, v, now));
    if Incidents.Counts(ObserveVote(t, v, now), v, IngestVote(t, v, now)) {
      CountedShowNames(ObserveVote(t, v, now), v, IngestVote(t, v, now));
    }
  }

  lemma SeedShowsNames(t: TrackerState, vs: Listing)
    requires AllShowNames(t)
    ensures AllShowNames(SetValidators(t, vs))
  {
    hide Backfill, RosterOf, TotalOf, SampleOf, SeqPower, Sum;
  }

  lemma CommitShowsNames(t: TrackerState, h: int, hash: string, now: int)
    requires ArchiveOk(t) && AllShowNames(t)
    ensures AllShowNames(ResolveCommit(t, h, hash, now))
  {
    hide ArchiveOk, ResolveCommit;
    forall k | k in ResolveCommit(t, h, hash, now).rounds ensures ShowsNames(ResolveCommit(t, h, hash, now).rounds[k]) {
      CommitKeepsRecord(t, h, hash, now, k);
      assert ShowsNames(t.rounds[k]);
    }
  }

  lemma MarkShowsNames(t: TrackerState, h: int, r: int)
    requires AllShowNames(t)
    ensures AllShowNames(MarkRoundAdvanced(t, h, r))
  {
  }

  lemma StepShowsNames(t: TrackerState, e: Timed)
    requires ArchiveOk(t) && AllShowNames(t)
    ensures AllShowNames(Step(t, e))
  {
    hide ArchiveOk, AllShowNames, SetValidators, ObserveRound, ObserveVote, IngestVote, MarkRoundAdvanced,
      ResolveCommit,
      OnlyPruned;
    match e.op
    case OpSetValidators(vs) => SeedShowsNames(t, vs);
    case OpObserveRound(h, r, proposer) =>
      ObserveRoundPrunes(t, h, r, proposer, e.now);
      PrunedShowNames(t, Step(t, e));
    case OpObserveVote(v) =>
      ObserveVotePrunes(t, v, e.now);
      PrunedShowNames(t, Step(t, e));
    case OpIngestVote(v) => IngestShowsNames(t, v, e.now);
    case OpMarkRoundAdvanced(h, r) => MarkShowsNames(t, h, r);
    case OpResolveCommit(h, hash) => CommitShowsNames(t, h, hash, e.now);
  }

  lemma {:induction false} RunShowsNames(cfg: Config, run: seq<Timed>)
    ensures AllShowNames(Run(cfg, run))
  {
    hide ArchiveOk, Step, ShowsNames, NewTracker;
    if run == [] {
      NewTracksNothing(cfg);
    } else {
      RunShowsNames(cfg, run[..|run| - 1]);
      RunSnoc(cfg, run);
      StepShowsNames(Run(cfg, run[..|run| - 1]), run[|run| - 1]);
    }
  }

  /** In every reachable state a group shows the first five names of its voters that have one, in voting order. */
  lemma GroupsShowFirstNames(cfg: Config, run: seq<Timed>, k: Key, hash: string)
    requires k in Run(cfg, run).rounds && hash in Run(cfg, run).rounds[k].groups
    ensures var rd := Run(cfg, run).rounds[k]; var names := NamesOf(rd.groups[hash].validators, rd.validators);
      rd.groups[hash].monikers == names[..Min(5, |names|)]
  {
    RunShowsNames(cfg, run);
    var rd := Run(cfg, run).rounds[k];
    assert ShowsNames(rd);
    SampleIsFirstNames(rd.groups[hash].validators, rd.validators);
    hide Run, SampleOf, NamesOf;
  }
}
