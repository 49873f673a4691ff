/**
 MarkRoundAdvanced promises that later votes of the round trigger no detection. It marks the records that exist, so the
 promise fails exactly where a record is still to come.
 */
module Advanced {
  import opened Common
  import opened TrackerTypes
  import opened Archive
  import opened Evidence
  import opened Detector
  import opened Tracker
  import opened TrackerRuns
  import opened Admission
  import opened Conservation

  ghost predicate TriggersAfter(t: TrackerState, more: seq<Timed>, v: VoteEvent, now: int)
  {
    IngestVote(After(t, more), v, now).trigger
  }

  /** After some calls, with nonnegative voting powers, some vote triggers an incident for k. */
  ghost predicate CanTrigger(t: TrackerState, k: Key)
  {
    exists more, v, now :: WeightedRun(more) && KeyOf(v) == k && TriggersAfter(t, more, v, now)
  }

  /** The phase is one that the configuration lets trigger, at a threshold that two groups can reach. */
  predicate Triggering(cfg: Config, kind: VoteType)
  {
    (kind == Precommit || (cfg.includePrevotes && kind == Prevote)) && cfg.thresholdPct <= 50.0
  }

  // ---------- what a trigger needs ----------

  lemma TriggerIsSplit(t: TrackerState, v: VoteEvent, now: int)
    requires IngestVote(t, v, now).trigger
    ensures var u, w := ObserveVote(t, v, now), IngestVote(t, v, now).tracker;
      && KeyOf(v) in w.rounds && Split(w.rounds[KeyOf(v)], u.cfg.thresholdPct)
      && (v.kind == Precommit || u.cfg.includePrevotes)
  {
    var u := ObserveVote(t, v, now);
    var key := KeyOf(v);
    var rd := if key in u.rounds then u.rounds[key] else NewRoundData(u.defaultValidators, u.defaultTotalPower);
    var counted := AddVote(rd, v.addr, v.hash);
    VerdictIsSplit(counted, key, u.cfg.thresholdPct);
    hide ObserveVote, ReportOf, Split, Settled, HasVote, AddVote;
    if Split(counted, u.cfg.thresholdPct) { SplitKept(counted, counted.(detected := true), u.cfg.thresholdPct); }
  }

  lemma TwoGroupsAtMostAll(rd: RoundData, h: string, k: string)
    requires RecordOk(rd) && h in rd.groups && k in rd.groups && h != k
    ensures rd.groups[h].power + rd.groups[k].power <= rd.totalVotingPower
  {
    VotedAtMostTotal(rd);
    var f := GroupPowers(rd.groups);
    var rest := rd.groups.Keys - {h} - {k};
    SumRemove(rd.groups.Keys, f, h);
    SumRemove(rd.groups.Keys - {h}, f, k);
    assert forall x :: x in rest ==> f(x) >= 0;
    SumAtMost({}, rest, f);
  }

  lemma TwoHalves(p: int, q: int, total: int, threshold: real)
    requires Pct(p, total) >= threshold && Pct(q, total) >= threshold && p + q <= total
    ensures threshold <= 50.0
  {
    if total > 0 && threshold > 50.0 {
      PctScales(p, total, threshold);
      PctScales(q, total, threshold);
      AboveHalf(threshold, total as real);
      assert 100.0 * (p as real) + 100.0 * (q as real) <= 100.0 * (total as real);
    }
  }

  lemma PctScales(p: int, total: int, threshold: real)
    requires total > 0 && Pct(p, total) >= threshold && threshold > 50.0
    ensures 100.0 * (p as real) >= threshold * (total as real)
  {
    if p > 0 {
      HeavyMeans(p, total, threshold);
    } else {
      PctMonotone(p, 0, total);
    }
  }

  lemma AboveHalf(threshold: real, total: real)
    requires threshold > 50.0 && total > 0.0
    ensures threshold * total > 50.0 * total
  {
    NegativeProduct(50.0 - threshold, total);
  }

  /** Two groups over the threshold share the voting power, so the threshold is at most one half. */
  lemma SplitNeedsHalf(rd: RoundData, threshold: real)
    requires RecordOk(rd) && Split(rd, threshold)
    ensures threshold <= 50.0
  {
    var h, k :| h != k && Over(rd, h, threshold) && Over(rd, k, threshold);
    TwoGroupsAtMostAll(rd, h, k);
    hide RecordOk, Pct;
    TwoHalves(rd.groups[h].power, rd.groups[k].power, rd.totalVotingPower, threshold);
  }

  lemma TriggerHasRoom(t: TrackerState, v: VoteEvent, now: int)
    requires ArchiveOk(t) && IngestVote(t, v, now).trigger
    ensures RoomFor(t, v.height, v.round)
  {
    TriggerCounts(t, v, now);
    hide IngestVote, ArchiveOk, RoomFor, Locate, RecordVote;
    if ValidVote(v) {
      assert Locate(t, v.height, v.round, now).Retained(v.height, v.round);
      ObservedIffRoom(t, v.height, v.round, now);
    } else {
      RetainedHasRoom(t, v.height, v.round);
    }
  }

  lemma RetainedHasRoom(t: TrackerState, h: int, r: int)
    requires t.Retained(h, r)
    ensures RoomFor(t, h, r)
  {
  }

  function Ingesting(v: VoteEvent, now: int): Timed { Timed(OpIngestVote(v), now) }

  lemma IngestedRun(cfg: Config, run: seq<Timed>, v: VoteEvent, now: int)
    ensures Run(cfg, run + [Ingesting(v, now)]) == IngestVote(Run(cfg, run), v, now).tracker
  {
    assert (run + [Ingesting(v, now)])[..|run|] == run;
    hide IngestVote;
  }

  lemma ObservationKeepsConfig(t: TrackerState, v: VoteEvent, now: int)
    requires ArchiveOk(t)
    ensures ObserveVote(t, v, now).cfg == t.cfg
  {
    hide ObserveVote, ArchiveOk;
    ObserveVoteEvolves(t, v, now);
    EvolvesOk(t, ObserveVote(t, v, now));
  }

  lemma LongerIsWeighted(run: seq<Timed>, v: VoteEvent, now: int)
    requires WeightedRun(run)
    ensures WeightedRun(run + [Ingesting(v, now)])
  {
  }

  lemma TriggerNeedsHalf(cfg: Config, run: seq<Timed>, v: VoteEvent, now: int)
    requires WeightedRun(run) && IngestVote(Run(cfg, run), v, now).trigger && v.kind != OtherType
    ensures Triggering(Run(cfg, run).cfg, v.kind)
  {
    hide Run, IngestVote, ObserveVote, ArchiveOk, Split, WeightedRun, RecordOk, Ingesting;
    var t, w := Run(cfg, run), IngestVote(Run(cfg, run), v, now).tracker;
    RunOk(cfg, run);
    TriggerIsSplit(t, v, now);
    ObservationKeepsConfig(t, v, now);
    LongerIsWeighted(run, v, now);
    RunRecordsOk(cfg, run + [Ingesting(v, now)]);
    IngestedRun(cfg, run, v, now);
    assert RecordOk(w.rounds[KeyOf(v)]);
    SplitNeedsHalf(w.rounds[KeyOf(v)], t.cfg.thresholdPct);
  }

  lemma TriggerInRange(cfg: Config, run: seq<Timed>, v: VoteEvent, now: int)
    requires IngestVote(Run(cfg, run), v, now).trigger
    ensures 0 <= v.round <= MAX_ROUND
  {
    hide Run, IngestVote, ObserveVote, Ingesting;
    var t := Run(cfg, run);
    TriggerCounts(t, v, now);
    IngestKeepsKeys(t, v, now);
    IngestedRun(cfg, run, v, now);
    RetainedInRange(cfg, run + [Ingesting(v, now)], v.height, v.round);
  }

  /** The facts of a triggering vote in a tracker reached with nonnegative powers. */
  lemma TriggerNeeds(cfg: Config, run: seq<Timed>, v: VoteEvent, now: int)
    requires WeightedRun(run) && IngestVote(Run(cfg, run), v, now).trigger && v.kind != OtherType
    ensures var t := Run(cfg, run);
      && RoomFor(t, v.height, v.round) && v.height > t.committedHeight && Triggering(t.cfg, v.kind)
      && 0 <= v.round <= MAX_ROUND
  {
    hide *;
    RunOk(cfg, run);
    TriggerHasRoom(Run(cfg, run), v, now);
    TriggerSpends(Run(cfg, run), v, now);
    TriggerNeedsHalf(cfg, run, v, now);
    TriggerInRange(cfg, run, v, now);
  }

  // ---------- two votes that trigger ----------

  function Halves(a: string, b: string): Listing { [(a, Validator(1, "")), (b, Validator(1, ""))] }

  function HalfRoster(a: string, b: string): Roster { map[a := Validator(1, ""), b := Validator(1, "")] }

  lemma HalvesAre(a: string, b: string)
    ensures RosterOf(Halves(a, b)) == HalfRoster(a, b) && TotalOf(Halves(a, b)) == 2
  {
    var vs := Halves(a, b);
    assert vs[..1] == [vs[0]] && vs[..1][..0] == [];
    assert RosterOf(vs[..1]) == map[a := Validator(1, "")] && TotalOf(vs[..1]) == 1;
  }

  function VoteIn(k: Key, a: string, hash: string): VoteEvent { VoteEvent(k.height, k.round, k.kind, a, hash, None) }

  predicate ValidName(a: string) { a != "" && |a| <= IDENTITY_LIMIT }

  /** Both voters can still be recorded in the round. */
  predicate BothFit(rd: ArchivedRound, a: string, b: string)
  {
    (a in rd.votes && b in rd.votes) || |rd.UnknownVoters()| + 2 <= UNKNOWN_LIMIT
  }

  /** A tracker whose roster is a and b with equal powers, where nothing of k was counted and there is room for it. */
  ghost predicate Ready(t: TrackerState, k: Key, a: string, b: string)
  {
    && ArchiveOk(t) && RoomFor(t, k.height, k.round) && k.height > t.committedHeight && 0 <= k.round <= MAX_ROUND
    && k !in t.rounds && Triggering(t.cfg, k.kind) && k.height > 0
    && t.defaultValidators == HalfRoster(a, b) && t.defaultTotalPower == 2
    && a != b && ValidName(a) && ValidName(b)
    && (t.Retained(k.height, k.round) ==> BothFit(t.archive[k.height].rounds[k.round], a, b))
  }

  function Fresh(a: string, b: string): RoundData { NewRoundData(HalfRoster(a, b), 2) }

  lemma OneGroup(a: string, b: string, threshold: real)
    ensures !Split(AddVote(Fresh(a, b), a, "X"), threshold)
  {
    var rd := AddVote(Fresh(a, b), a, "X");
    assert rd.groups.Keys == {"X"};
    forall h, k | Over(rd, h, threshold) && Over(rd, k, threshold) ensures h == k {
      assert h in rd.groups && k in rd.groups;
    }
  }

  lemma TwoGroups(a: string, b: string, threshold: real)
    requires threshold <= 50.0 && a != b
    ensures var rd := AddVote(AddVote(Fresh(a, b), a, "X"), b, "Y");
      Split(rd, threshold) && rd.totalVotedPower == 2 == rd.totalVotingPower && !rd.advanced && !rd.detected
  {
    var one := AddVote(Fresh(a, b), a, "X");
    var rd := AddVote(one, b, "Y");
    assert "X" != "Y" by { assert "X"[0] != "Y"[0]; }
    assert one.groups["X"].power == 1 && "Y" !in one.groups;
    assert rd.groups["X"].power == 1 && rd.groups["Y"].power == 1;
    HeavyMeans(1, 2, threshold);
    assert Over(rd, "X", threshold) && Over(rd, "Y", threshold);
  }

  lemma FitsUncapped(rd: ArchivedRound, k: Key, a: string, b: string)
    requires BothFit(rd, a, b)
    ensures !Capped(rd, VoteIn(k, a, "X"))
  {
  }

  /** Recording the first vote leaves room for the second. */
  lemma SecondUncapped(rd: ArchivedRound, k: Key, a: string, b: string, now: int)
    requires BothFit(rd, a, b) && k.kind != OtherType
    ensures !Capped(RecordInRound(rd, VoteIn(k, a, "X"), now), VoteIn(k, b, "Y"))
  {
    var v := VoteIn(k, a, "X");
    FitsUncapped(rd, k, a, b);
    RecordedVote(rd, v, now);
    var rd2 := RecordInRound(rd, v, now);
    hide RecordInRound, Capped;
    SubsetSize(rd2.UnknownVoters(), rd.UnknownVoters() + {a});
    SecondUncappedNow(rd, rd2, k, a, b);
  }

  lemma SecondUncappedNow(rd: ArchivedRound, rd2: ArchivedRound, k: Key, a: string, b: string)
    requires BothFit(rd, a, b) && rd2.votes.Keys == rd.votes.Keys + {a}
    requires |rd2.UnknownVoters()| <= |rd.UnknownVoters() + {a}|
    ensures !Capped(rd2, VoteIn(k, b, "Y"))
  {
    assert |rd.UnknownVoters() + {a}| <= |rd.UnknownVoters()| + 1;
  }

  lemma NewRoundFits(r: int, roster: Roster, now: int, a: string, b: string)
    ensures BothFit(NewRound(r, roster, now), a, b)
  {
    assert NewRound(r, roster, now).UnknownVoters() == {};
  }

  lemma ValidVoteIn(k: Key, a: string, hash: string)
    requires k.height > 0 && 0 <= k.round <= MAX_ROUND && k.kind != OtherType && ValidName(a)
      && |hash| <= IDENTITY_LIMIT
    ensures ValidVote(VoteIn(k, a, hash)) && KeyOf(VoteIn(k, a, hash)) == k
  {
  }

  /** The tracker after the first vote: the round retained, the vote counted in a fresh record. */
  ghost predicate HalfWay(t: TrackerState, k: Key, a: string, b: string)
  {
    && ArchiveOk(t) && t.Retained(k.height, k.round) && k.height > t.committedHeight && Triggering(t.cfg, k.kind)
    && k in t.rounds && t.rounds[k] == AddVote(Fresh(a, b), a, "X")
    && !Capped(t.archive[k.height].rounds[k.round], VoteIn(k, b, "Y"))
  }

  lemma FirstIsArchived(t: TrackerState, k: Key, a: string, b: string, now: int)
    requires Ready(t, k, a, b)
    ensures var v := VoteIn(k, a, "X"); var u := ObserveVote(t, v, now);
      && ArchiveOk(u) && OnlyPruned(t, u) && u.cfg == t.cfg && HasVote(u, v)
      && !Capped(u.archive[k.height].rounds[k.round], VoteIn(k, b, "Y"))
  {
    var v := VoteIn(k, a, "X");
    var rd := EvidenceBefore(t, v, now);
    ValidVoteIn(k, a, "X");
    NewRoundFits(k.round, t.defaultValidators, now, a, b);
    assert BothFit(rd, a, b) by { hide BothFit; }
    hide BothFit, ArchiveOk, RoomFor, Capped, RecordInRound, ObserveVote, OnlyPruned, EvidenceBefore, ValidVote;
    VoteFindsRoom(t, v, now);
    FitsUncapped(rd, k, a, b);
    RecordedVote(rd, v, now);
    SecondUncapped(rd, k, a, b, now);
  }

  lemma FirstIsCounted(u: TrackerState, k: Key, a: string, b: string)
    requires k !in u.rounds && u.defaultValidators == HalfRoster(a, b) && u.defaultTotalPower == 2
    ensures var x := CountVote(u, VoteIn(k, a, "X"));
      x.tracker == u.(rounds := u.rounds[k := AddVote(Fresh(a, b), a, "X")])
  {
    VerdictIsSplit(AddVote(Fresh(a, b), a, "X"), k, u.cfg.thresholdPct);
    OneGroup(a, b, u.cfg.thresholdPct);
    hide ReportOf, Split, AddVote, Settled;
    assert KeyOf(VoteIn(k, a, "X")) == k;
  }

  lemma KeepsArchiveOk(t: TrackerState, rounds: map<Key, RoundData>)
    requires ArchiveOk(t) && forall k :: k in rounds ==> t.Retained(k.height, k.round) && k.kind != OtherType
    ensures ArchiveOk(t.(rounds := rounds))
  {
    hide BlockOk;
  }

  /** What the pruning of an observation leaves of a ready tracker. */
  lemma PrunedIsReady(t: TrackerState, u: TrackerState, k: Key, a: string, b: string)
    requires Ready(t, k, a, b) && OnlyPruned(t, u) && u.cfg == t.cfg
    ensures u.committedHeight == t.committedHeight && k !in u.rounds && k.height > u.committedHeight
    ensures u.defaultValidators == HalfRoster(a, b) && u.defaultTotalPower == 2 && Triggering(u.cfg, k.kind)
  {
    hide ArchiveOk, RoomFor, BothFit, HalfRoster, Triggering;
  }

  lemma IngestIsCount(t: TrackerState, v: VoteEvent, now: int)
    requires HasVote(ObserveVote(t, v, now), v) && v.height > ObserveVote(t, v, now).committedHeight
    ensures IngestVote(t, v, now) == CountVote(ObserveVote(t, v, now), v)
  {
    hide ObserveVote, CountVote, HasVote;
  }

  lemma CountedIsHalfWay(u: TrackerState, k: Key, a: string, b: string, w: TrackerState)
    requires ArchiveOk(u) && HasVote(u, VoteIn(k, a, "X")) && k.height > u.committedHeight && Triggering(u.cfg, k.kind)
    requires w == u.(rounds := u.rounds[k := AddVote(Fresh(a, b), a, "X")])
    requires u.Retained(k.height, k.round) && !Capped(u.archive[k.height].rounds[k.round], VoteIn(k, b, "Y"))
    ensures HalfWay(w, k, a, b)
  {
    VoteHasKind(u, VoteIn(k, a, "X"));
    KeysAreArchived(u);
    hide ArchiveOk, HasVote, Capped, AddVote, Fresh, Triggering;
    KeepsArchiveOk(u, w.rounds);
  }

  lemma FirstVote(t: TrackerState, k: Key, a: string, b: string, now: int)
    requires Ready(t, k, a, b)
    ensures HalfWay(IngestVote(t, VoteIn(k, a, "X"), now).tracker, k, a, b)
  {
    var v := VoteIn(k, a, "X");
    var u := ObserveVote(t, v, now);
    assert v.height == k.height && v.round == k.round && v.kind == k.kind;
    hide *;
    FirstIsArchived(t, k, a, b, now);
    PrunedIsReady(t, u, k, a, b);
    FirstIsCounted(u, k, a, b);
    IngestIsCount(t, v, now);
    VoteHasKind(u, v);
    CountedIsHalfWay(u, k, a, b, CountVote(u, v).tracker);
  }

  lemma SecondIsArchived(t: TrackerState, k: Key, a: string, b: string, now: int)
    requires HalfWay(t, k, a, b) && ValidVote(VoteIn(k, b, "Y"))
    ensures var v := VoteIn(k, b, "Y"); var u := ObserveVote(t, v, now);
      HasVote(u, v) && u.rounds == t.rounds && u.cfg == t.cfg && u.committedHeight == t.committedHeight
  {
    var v := VoteIn(k, b, "Y");
    RetainedHasRoom(t, k.height, k.round);
    hide ArchiveOk, RoomFor, Capped, RecordInRound, OnlyPruned, Locate, RecordVote;
    VoteFindsRoom(t, v, now);
    RecordedVote(EvidenceBefore(t, v, now), v, now);
    LocateRetained(t, k.height, k.round, now);
  }

  lemma SecondFires(u: TrackerState, k: Key, a: string, b: string)
    requires k in u.rounds && u.rounds[k] == AddVote(Fresh(a, b), a, "X") && a != b && Triggering(u.cfg, k.kind)
    ensures CountVote(u, VoteIn(k, b, "Y")).trigger
  {
    var rd := AddVote(Fresh(a, b), a, "X");
    var counted := AddVote(rd, b, "Y");
    TwoGroups(a, b, u.cfg.thresholdPct);
    VerdictIsSplit(counted, k, u.cfg.thresholdPct);
    assert KeyOf(VoteIn(k, b, "Y")) == k && rd.seen == {a};
    hide ReportOf, Split, AddVote;
  }

  lemma SecondVote(t: TrackerState, k: Key, a: string, b: string, now: int)
    requires HalfWay(t, k, a, b) && a != b && ValidVote(VoteIn(k, b, "Y"))
    ensures IngestVote(t, VoteIn(k, b, "Y"), now).trigger
  {
    SecondIsArchived(t, k, a, b, now);
    SecondFires(ObserveVote(t, VoteIn(k, b, "Y"), now), k, a, b);
    hide ObserveVote, CountVote, HasVote, ArchiveOk, AddVote, Capped;
  }

  function FirstOf(k: Key, a: string): Timed { Timed(OpIngestVote(VoteIn(k, a, "X")), 0) }

  /** From a ready tracker, two votes for different hashes trigger. */
  lemma ReadyTriggers(t: TrackerState, k: Key, a: string, b: string)
    requires Ready(t, k, a, b)
    ensures TriggersAfter(t, [FirstOf(k, a)], VoteIn(k, b, "Y"), 0)
  {
    var more := [FirstOf(k, a)];
    assert more[..0] == [];
    assert After(t, more) == IngestVote(t, VoteIn(k, a, "X"), 0).tracker by { hide IngestVote; }
    FirstVote(t, k, a, b, 0);
    ValidVoteIn(k, b, "Y");
    hide After, IngestVote, ArchiveOk, RoomFor, HalfWay, ValidVote, BothFit;
    SecondVote(After(t, more), k, a, b, 0);
  }

  // ---------- getting ready ----------

  lemma SeedKeepsRoom(t: TrackerState, vs: Listing, h: int, r: int)
    requires RoomFor(t, h, r)
    ensures RoomFor(SetValidators(t, vs), h, r)
  {
    var u := SetValidators(t, vs);
    assert u.archive.Keys == t.archive.Keys;
    assert |u.archive| == |u.archive.Keys| && |t.archive| == |t.archive.Keys|;
    if h in t.archive { assert u.archive[h].rounds.Keys == t.archive[h].rounds.Keys; }
    hide Reweigh, RosterOf, TotalOf;
    assert HeightFits(t, h) ==> HeightFits(u, h);
  }

  lemma SeedKeepsFit(t: TrackerState, vs: Listing, h: int, r: int, a: string, b: string)
    requires t.Retained(h, r) && BothFit(t.archive[h].rounds[r], a, b)
    ensures BothFit(SetValidators(t, vs).archive[h].rounds[r], a, b)
  {
    var rd, rd2 := t.archive[h].rounds[r], SetValidators(t, vs).archive[h].rounds[r];
    hide Reweigh, RosterOf, TotalOf;
    assert rd2.votes == rd.votes && (rd.roster != map[] ==> rd2.roster == rd.roster);
    SubsetSize(rd2.UnknownVoters(), rd.UnknownVoters());
  }

  /** Two voters that fit, whoever voted so far. */
  lemma TwoVoters(t: TrackerState, h: int, r: int) returns (a: string, b: string)
    requires ArchiveOk(t)
    ensures a != b && ValidName(a) && ValidName(b)
    ensures t.Retained(h, r) ==> BothFit(t.archive[h].rounds[r], a, b)
  {
    a, b := "A", "B";
    assert "A"[0] != "B"[0];
    if t.Retained(h, r) {
      var rd := t.archive[h].rounds[r];
      BlockAt(t, h);
      assert RoundOk(r, rd);
      hide ArchiveOk, BlockOk;
      if |rd.UnknownVoters()| >= 2 {
        a := Pick(rd.UnknownVoters());
        assert |rd.UnknownVoters() - {a}| >= 1;
        b := Pick(rd.UnknownVoters() - {a});
      }
    }
  }

  lemma SeededIsReady(t: TrackerState, k: Key, a: string, b: string)
    requires ArchiveOk(t) && RoomFor(t, k.height, k.round) && k.height > t.committedHeight && 0 <= k.round <= MAX_ROUND
    requires k !in t.rounds && Triggering(t.cfg, k.kind) && a != b && ValidName(a) && ValidName(b)
    requires t.Retained(k.height, k.round) ==> BothFit(t.archive[k.height].rounds[k.round], a, b)
    ensures Ready(SetValidators(t, Halves(a, b)), k, a, b)
  {
    var vs := Halves(a, b);
    RoomIsAboveZero(t, k.height, k.round);
    HalvesAre(a, b);
    SeedKeepsRoom(t, vs, k.height, k.round);
    SetValidatorsOk(t, vs);
    if t.Retained(k.height, k.round) { SeedKeepsFit(t, vs, k.height, k.round, a, b); }
    hide ArchiveOk, RoomFor, BothFit, Backfill, Reweigh, RosterOf, TotalOf, HalfRoster, Halves;
  }

  function SeedThenVote(k: Key, a: string, b: string): seq<Timed>
  {
    [Timed(OpSetValidators(Halves(a, b)), 0)] + [FirstOf(k, a)]
  }

  lemma SeedThenVoteRuns(t: TrackerState, k: Key, a: string, b: string)
    ensures After(t, SeedThenVote(k, a, b)) == After(SetValidators(t, Halves(a, b)), [FirstOf(k, a)])
    ensures WeightedRun(SeedThenVote(k, a, b))
  {
    var e := Timed(OpSetValidators(Halves(a, b)), 0);
    assert [e][..0] == [];
    assert After(t, [e]) == SetValidators(t, Halves(a, b)) by { hide SetValidators; }
    AfterAppend(t, [e], [FirstOf(k, a)]);
    assert WeightedRun(SeedThenVote(k, a, b)) by { hide After; }
    hide After, SetValidators;
  }

  lemma CanTriggerBy(t: TrackerState, k: Key, more: seq<Timed>, v: VoteEvent, now: int)
    requires WeightedRun(more) && KeyOf(v) == k && TriggersAfter(t, more, v, now)
    ensures CanTrigger(t, k)
  {
    hide TriggersAfter, WeightedRun, KeyOf;
  }

  lemma TriggersAfterSeed(t: TrackerState, k: Key, a: string, b: string)
    requires TriggersAfter(SetValidators(t, Halves(a, b)), [FirstOf(k, a)], VoteIn(k, b, "Y"), 0)
    ensures TriggersAfter(t, SeedThenVote(k, a, b), VoteIn(k, b, "Y"), 0)
  {
    SeedThenVoteRuns(t, k, a, b);
    hide After, IngestVote, SetValidators, SeedThenVote;
  }

  lemma SeededTriggers(t: TrackerState, k: Key)
    requires ArchiveOk(t) && RoomFor(t, k.height, k.round) && k.height > t.committedHeight && 0 <= k.round <= MAX_ROUND
    requires k !in t.rounds && Triggering(t.cfg, k.kind)
    ensures CanTrigger(t, k)
  {
    hide *;
    var a, b := TwoVoters(t, k.height, k.round);
    SeededIsReady(t, k, a, b);
    ReadyTriggers(SetValidators(t, Halves(a, b)), k, a, b);
    TriggersAfterSeed(t, k, a, b);
    SeedThenVoteRuns(t, k, a, b);
    assert KeyOf(VoteIn(k, b, "Y")) == k by { KeyOfVoteIn(k, b, "Y"); }
    CanTriggerBy(t, k, SeedThenVote(k, a, b), VoteIn(k, b, "Y"), 0);
  }

  lemma KeyOfVoteIn(k: Key, a: string, hash: string)
    ensures KeyOf(VoteIn(k, a, hash)) == k
  {
  }

  // ---------- the promise, exactly ----------

  lemma MarkKeepsRoom(t: TrackerState, h: int, r: int)
    ensures var m := MarkRoundAdvanced(t, h, r);
      m.archive == t.archive && m.rounds.Keys == t.rounds.Keys && m.cfg == t.cfg
      && m.committedHeight == t.committedHeight && RoomFor(m, h, r) == RoomFor(t, h, r)
  {
  }

  lemma RunMore(cfg: Config, run: seq<Timed>, h: int, r: int, more: seq<Timed>)
    ensures var e := Timed(OpMarkRoundAdvanced(h, r), 0);
      Run(cfg, run + [e] + more) == After(MarkRoundAdvanced(Run(cfg, run), h, r), more)
  {
    var e := Timed(OpMarkRoundAdvanced(h, r), 0);
    AfterAppend(NewTracker(cfg), run + [e], more);
    assert (run + [e])[..|run|] == run;
    hide MarkRoundAdvanced;
  }

  /** Whoever triggers after the mark found no record at the mark, and room and height and threshold to trigger with. */
  lemma TriggerAfterMarkNeeds(cfg: Config, run: seq<Timed>, k: Key, more: seq<Timed>, v: VoteEvent, now: int)
    requires WeightedRun(run) && WeightedRun(more) && KeyOf(v) == k && k.kind != OtherType
    requires TriggersAfter(MarkRoundAdvanced(Run(cfg, run), k.height, k.round), more, v, now)
    ensures var t := Run(cfg, run);
      && k !in t.rounds && k.height > t.committedHeight && 0 <= k.round <= MAX_ROUND
      && RoomFor(t, k.height, k.round) && Triggering(t.cfg, k.kind)
  {
    var t := Run(cfg, run);
    var m := MarkRoundAdvanced(t, k.height, k.round);
    hide *;
    RunOk(cfg, run);
    MarkKeepsRoom(t, k.height, k.round);
    MarkedOk(t, k.height, k.round);
    TriggerAtEnd(cfg, run, k, more, v, now);
    if k in t.rounds { TriggerFromRecord(cfg, run, k, more, v, now); }
    RunIsLater(m, more);
    LaterKeeps(m, After(m, more));
    if !RoomFor(m, k.height, k.round) { RunKeepsNoRoom(m, more, k.height, k.round); }
  }

  lemma MarkedOk(t: TrackerState, h: int, r: int)
    requires ArchiveOk(t)
    ensures ArchiveOk(MarkRoundAdvanced(t, h, r))
  {
    hide ArchiveOk, MarkRoundAdvanced;
    MarkRoundAdvancedEvolves(t, h, r);
    EvolvesOk(t, MarkRoundAdvanced(t, h, r));
  }

  lemma TriggerFromRecord(cfg: Config, run: seq<Timed>, k: Key, more: seq<Timed>, v: VoteEvent, now: int)
    requires KeyOf(v) == k && k.kind != OtherType && k in Run(cfg, run).rounds
    ensures !TriggersAfter(MarkRoundAdvanced(Run(cfg, run), k.height, k.round), more, v, now)
  {
    hide Run, After, MarkRoundAdvanced, IngestVote;
    AdvancedRecordStaysSilent(cfg, run, more, k.height, k.round, v, now);
  }

  lemma TriggerAtEnd(cfg: Config, run: seq<Timed>, k: Key, more: seq<Timed>, v: VoteEvent, now: int)
    requires WeightedRun(run) && WeightedRun(more) && KeyOf(v) == k && k.kind != OtherType
    requires TriggersAfter(MarkRoundAdvanced(Run(cfg, run), k.height, k.round), more, v, now)
    ensures var w := After(MarkRoundAdvanced(Run(cfg, run), k.height, k.round), more);
      RoomFor(w, k.height, k.round) && k.height > w.committedHeight && Triggering(w.cfg, k.kind)
      && 0 <= k.round <= MAX_ROUND
  {
    var all := run + [Timed(OpMarkRoundAdvanced(k.height, k.round), 0)] + more;
    MarkedIsWeighted(run, k.height, k.round, more);
    assert v.height == k.height && v.round == k.round && v.kind == k.kind;
    assert IngestVote(After(MarkRoundAdvanced(Run(cfg, run), k.height, k.round), more), v, now).trigger by {
      hide Run, After, IngestVote, MarkRoundAdvanced;
    }
    hide *;
    RunMore(cfg, run, k.height, k.round, more);
    TriggerNeeds(cfg, all, v, now);
  }

  lemma MarkedIsWeighted(run: seq<Timed>, h: int, r: int, more: seq<Timed>)
    requires WeightedRun(run) && WeightedRun(more)
    ensures WeightedRun(run + [Timed(OpMarkRoundAdvanced(h, r), 0)] + more)
  {
  }

  lemma LaterKeeps(t: TrackerState, u: TrackerState)
    requires Later(t, u)
    ensures u.cfg == t.cfg && t.committedHeight <= u.committedHeight
  {
    hide ArchiveOk, CatalogueHonest, EvidenceHonest;
  }

  /**
   After MarkRoundAdvanced some later vote of the round can still trigger an incident if and only if no vote of its
   phase was counted before the mark, the height is not committed, there is still room for the round, and the
   configuration lets the phase trigger.
   */
  lemma MarkIsLostExactly(cfg: Config, run: seq<Timed>, k: Key)
    requires WeightedRun(run) && k.kind != OtherType
    ensures var t := Run(cfg, run);
      CanTrigger(MarkRoundAdvanced(t, k.height, k.round), k) <==>
        && k !in t.rounds && k.height > t.committedHeight && 0 <= k.round <= MAX_ROUND
        && RoomFor(t, k.height, k.round) && Triggering(t.cfg, k.kind)
  {
    var t := Run(cfg, run);
    var m := MarkRoundAdvanced(t, k.height, k.round);
    RunOk(cfg, run);
    MarkKeepsRoom(t, k.height, k.round);
    MarkRoundAdvancedEvolves(t, k.height, k.round);
    EvolvesOk(t, m);
    hide Run, ArchiveOk, RoomFor, MarkRoundAdvanced, Triggering, TriggersAfter, WeightedRun, Evolves, Ages;
    if CanTrigger(m, k) {
      var more, v, now :| WeightedRun(more) && KeyOf(v) == k && TriggersAfter(m, more, v, now);
      TriggerAfterMarkNeeds(cfg, run, k, more, v, now);
    } else if k !in t.rounds && k.height > t.committedHeight && 0 <= k.round <= MAX_ROUND
      && RoomFor(t, k.height, k.round) && Triggering(t.cfg, k.kind) {
      SeededTriggers(m, k);
    }
  }

  // ---------- an input ----------

  const FIRST := Key(1, 0, Precommit)

  /** Two validators of equal power; the round is marked before any vote; then they precommit different hashes. */
  const MARKED_EARLY: seq<Timed> := [
    Timed(OpSetValidators(Halves("A", "B")), 0),
    Timed(OpMarkRoundAdvanced(1, 0), 0),
    Timed(OpIngestVote(VoteIn(FIRST, "A", "X")), 0),
    Timed(OpIngestVote(VoteIn(FIRST, "B", "Y")), 0)]

  lemma NewIsReady(cfg: Config)
    requires cfg.thresholdPct <= 50.0
    ensures Ready(SetValidators(NewTracker(cfg), Halves("A", "B")), FIRST, "A", "B")
  {
    NewTrackerOk(cfg);
    assert "A"[0] != "B"[0];
    assert RoomFor(NewTracker(cfg), 1, 0);
    SeededIsReady(NewTracker(cfg), FIRST, "A", "B");
  }

  lemma MarkKeepsReady(t: TrackerState, k: Key, a: string, b: string)
    requires Ready(t, k, a, b)
    ensures Ready(MarkRoundAdvanced(t, k.height, k.round), k, a, b)
  {
    MarkKeepsRoom(t, k.height, k.round);
    MarkRoundAdvancedEvolves(t, k.height, k.round);
    EvolvesOk(t, MarkRoundAdvanced(t, k.height, k.round));
    hide ArchiveOk, RoomFor, BothFit, Triggering, HalfRoster;
  }

  lemma MarkedEarlyRuns(cfg: Config)
    ensures var m := MarkRoundAdvanced(SetValidators(NewTracker(cfg), Halves("A", "B")), 1, 0);
      Run(cfg, MARKED_EARLY[..3]) == After(m, [FirstOf(FIRST, "A")])
  {
    var run, s := MARKED_EARLY, SetValidators(NewTracker(cfg), Halves("A", "B"));
    RunStep(cfg, run, 0);
    RunStep(cfg, run, 1);
    assert run[..0] == [] && Run(cfg, []) == NewTracker(cfg);
    assert Step(NewTracker(cfg), run[0]) == s by { hide SetValidators; }
    assert Step(s, run[1]) == MarkRoundAdvanced(s, 1, 0) by { hide SetValidators, MarkRoundAdvanced; }
    assert Run(cfg, run[..2]) == MarkRoundAdvanced(s, 1, 0) by { hide Run, Step, SetValidators, MarkRoundAdvanced; }
    hide Step, After, SetValidators, MarkRoundAdvanced;
    AfterAppend(NewTracker(cfg), run[..2], [FirstOf(FIRST, "A")]);
    assert run[..3] == run[..2] + [FirstOf(FIRST, "A")];
  }

  lemma TriggersAtEnd(cfg: Config, run: seq<Timed>, i: nat, t: TrackerState, more: seq<Timed>, v: VoteEvent)
    requires i < |run| && run[i] == Timed(OpIngestVote(v), 0) && Run(cfg, run[..i]) == After(t, more)
    requires TriggersAfter(t, more, v, 0)
    ensures TriggersAt(cfg, run, i, KeyOf(v))
  {
    hide Run, After, IngestVote;
  }

  /** The last vote of the run above triggers, although its round was marked as advanced. */
  lemma MarkedRoundTriggers(cfg: Config)
    requires cfg.thresholdPct <= 50.0
    ensures TriggersAt(cfg, MARKED_EARLY, 3, FIRST)
  {
    assert MARKED_EARLY[3] == Timed(OpIngestVote(VoteIn(FIRST, "B", "Y")), 0) && FIRST.height == 1 && FIRST.round == 0;
    hide *;
    var s := SetValidators(NewTracker(cfg), Halves("A", "B"));
    NewIsReady(cfg);
    MarkKeepsReady(s, FIRST, "A", "B");
    ReadyTriggers(MarkRoundAdvanced(s, 1, 0), FIRST, "A", "B");
    MarkedEarlyRuns(cfg);
    KeyOfVoteIn(FIRST, "B", "Y");
    TriggersAtEnd(cfg, MARKED_EARLY, 3, MarkRoundAdvanced(s, 1, 0), [FirstOf(FIRST, "A")], VoteIn(FIRST, "B", "Y"));
  }
}
