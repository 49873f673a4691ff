/** Votes delivered again, at any later moment of a run: exactly when the second delivery changes something. */
module Redelivery {
  import opened Common
  import opened TrackerTypes
  import opened Archive
  import opened Evidence
  import opened Detector
  import opened Tracker
  import opened TrackerRuns
  import opened Oracle
  import opened Truncation
  import opened Admission
  import Conservation

  // ---------- one round ----------

  /** The round holds the vote's hash, or has a mark that covers it: its voter is capped, or its list of hashes full. */
  predicate Accounted(rd: ArchivedRound, v: VoteEvent)
  {
    v.hash in rd.Held(v.addr, v.kind) || Capped(rd, v) || Present(rd, v).truncated
  }

  lemma FullVoteUnchanged(r: int, rd: ArchivedRound, v: VoteEvent, now: int)
    requires RoundOk(r, rd) && v.kind != OtherType && Present(rd, v).truncated
    requires !Capped(rd, v) && v.hash !in Present(rd, v).Hashes()
    ensures RecordInRound(rd, v, now) == rd && !RecordBumps(rd, v) && !Appends(rd, v)
  {
    var vote := Present(rd, v);
    PresentOk(r, rd, v);
    assert vote.(truncated := true, conflicting := true) == vote;
    assert rd.votes[v.addr].Put(v.kind, vote) == rd.votes[v.addr];
    assert rd.votes[v.addr := rd.votes[v.addr]] == rd.votes;
  }

  lemma AccountedUnchanged(r: int, rd: ArchivedRound, v: VoteEvent, now: int)
    requires RoundOk(r, rd) && v.kind != OtherType && Accounted(rd, v) && (Capped(rd, v) ==> rd.truncated)
    ensures RecordInRound(rd, v, now) == rd && !RecordBumps(rd, v) && !Appends(rd, v)
  {
    HeldIsPresent(rd, v);
    if !Capped(rd, v) && v.hash !in Present(rd, v).Hashes() { FullVoteUnchanged(r, rd, v, now); }
    hide RoundOk;
  }

  lemma UnaccountedBumps(rd: ArchivedRound, v: VoteEvent)
    requires !Accounted(rd, v)
    ensures RecordBumps(rd, v)
  {
    HeldIsPresent(rd, v);
  }

  lemma AccountedBlock(b: ArchivedHeight, v: VoteEvent, now: int)
    requires BlockOk(b.height, b) && v.round in b.rounds && v.kind != OtherType
    requires Capped(b.rounds[v.round], v) ==> b.rounds[v.round].truncated
    ensures RecordVote(b, v, now) == b <==> Accounted(b.rounds[v.round], v)
  {
    var rd := b.rounds[v.round];
    assert RoundOk(v.round, rd);
    if Accounted(rd, v) {
      AccountedUnchanged(v.round, rd, v, now);
      assert b.rounds[v.round := rd] == b.rounds;
    } else {
      UnaccountedBumps(rd, v);
    }
    hide RoundOk, BlockOk, Accounted, RecordInRound, RecordBumps, Appends, Capped;
  }

  // ---------- the archive ----------

  lemma {:induction false} DeliveredIsSeen(run: seq<Timed>, i: nat)
    requires i < |run| && IsVote(run[i].op)
    ensures var v := run[i].op.v; v.hash in SeenHashes(run, v.height, v.round, v.addr, v.kind)
  {
    if i < |run| - 1 { DeliveredIsSeen(run[..|run| - 1], i); }
  }

  lemma SeenIsNotAdmissible(run: seq<Timed>, t: TrackerState, v: VoteEvent)
    requires RefinesRounds(run, t) && v.hash in SeenHashes(run, v.height, v.round, v.addr, v.kind)
    ensures !Admissible(t, v.height, v.round)
  {
    hide Admissible, SeenHashes, RefinesRound, SeenProposer;
  }

  /** A delivered vote finds its round retained or dead. */
  lemma DeliveredIsSettled(cfg: Config, run: seq<Timed>, i: nat)
    requires i < |run| && IsVote(run[i].op)
    ensures var t, v := Run(cfg, run), run[i].op.v; t.Retained(v.height, v.round) || Dead(t, v.height, v.round)
  {
    var v := run[i].op.v;
    DeliveredIsSeen(run, i);
    RunRefinesRounds(cfg, run);
    hide Run, SeenHashes, RefinesRounds, Admissible;
    SeenIsNotAdmissible(run, Run(cfg, run), v);
  }

  /** What a round says of a vote that was delivered: its hash is held, or the round is marked truncated. */
  lemma DeliveredIsHeld(cfg: Config, run: seq<Timed>, i: nat)
    requires i < |run| && IsVote(run[i].op) && Run(cfg, run).Retained(run[i].op.v.height, run[i].op.v.round)
    ensures var v := run[i].op.v; var rd := Run(cfg, run).archive[v.height].rounds[v.round];
      !rd.truncated ==> v.hash in rd.Held(v.addr, v.kind)
  {
    var v := run[i].op.v;
    DeliveredIsSeen(run, i);
    ArchiveRefinesOracle(cfg, run, v.height, v.round, v.addr, v.kind);
  }

  lemma HeldIsNotCapped(rd: ArchivedRound, v: VoteEvent)
    requires v.hash in rd.Held(v.addr, v.kind)
    ensures !Capped(rd, v)
  {
  }

  lemma ObservedAgain(t: TrackerState, v: VoteEvent, now: int)
    requires ArchiveOk(t) && ValidVote(v) && t.Retained(v.height, v.round)
    ensures ObserveVote(t, v, now) == t <==> RecordVote(t.archive[v.height], v, now) == t.archive[v.height]
    ensures ObserveVote(t, v, now).rounds == t.rounds
  {
    LocateRetained(t, v.height, v.round, now);
    ReplaceSameBlock(t, v.height);
    hide ArchiveOk, Locate, RecordVote;
    var u := ObserveVote(t, v, now);
    assert u.archive[v.height] == RecordVote(t.archive[v.height], v, now);
  }

  /**
   A vote that was delivered anywhere in the run is delivered again, with anything in between. The second delivery
   changes nothing, down to timestamps and revisions, if and only if the round is not retained any more or accounts for
   the vote. A round that is not marked truncated always does.
   */
  lemma DuplicateVoteChangesNothing(cfg: Config, run: seq<Timed>, i: nat, now: int)
    requires i < |run| && IsVote(run[i].op)
    ensures var t, v := Run(cfg, run), run[i].op.v;
      ObserveVote(t, v, now) == t <==>
        !t.Retained(v.height, v.round) || Accounted(t.archive[v.height].rounds[v.round], v)
    ensures var t, v := Run(cfg, run), run[i].op.v;
      t.Retained(v.height, v.round) ==>
        t.archive[v.height].rounds[v.round].truncated || Accounted(t.archive[v.height].rounds[v.round], v)
  {
    var t, v := Run(cfg, run), run[i].op.v;
    RunOk(cfg, run);
    assert ValidVote(v) && v.kind != OtherType && v.round >= 0;
    DeliveredIsSettled(cfg, run, i);
    hide Run, ValidVote, IsVote, ArchiveOk, Dead, RecordVote;
    if t.Retained(v.height, v.round) {
      var rd := t.archive[v.height].rounds[v.round];
      DeliveredIsHeld(cfg, run, i);
      if !rd.truncated { HeldIsNotCapped(rd, v); }
      BlockAt(t, v.height);
      AccountedBlock(t.archive[v.height], v, now);
      ObservedAgain(t, v, now);
      hide Capped;
    } else {
      LocateDead(t, v.height, v.round, now);
    }
  }

  // ---------- the detector ----------

  /** The detector has counted the vote's validator for the vote's key. */
  predicate HasCounted(t: TrackerState, v: VoteEvent)
  {
    KeyOf(v) in t.rounds && v.addr in t.rounds[KeyOf(v)].seen
  }

  ghost predicate CountedOrPast(t: TrackerState, v: VoteEvent)
  {
    HasCounted(t, v) || v.height <= t.committedHeight || Dead(t, v.height, v.round)
  }

  lemma StepKeepsCounted(t: TrackerState, e: Timed, v: VoteEvent)
    requires ArchiveOk(t) && CountedOrPast(t, v)
    ensures CountedOrPast(Step(t, e), v)
  {
    var u := Step(t, e);
    StepEvolves(t, e);
    EvolvesOk(t, u);
    if Dead(t, v.height, v.round) {
      DeadStaysDead(t, u, v.height, v.round);
    } else if HasCounted(t, v) {
      StepSurvives(t, e, KeyOf(v));
      DetectorIsArchived(t, KeyOf(v));
      hide Step, ArchiveOk, Evolves;
      if KeyOf(v) !in u.rounds && !u.Retained(v.height, v.round) { LostIsDead(t, u, v.height, v.round); }
    } else {
      assert v.height <= u.committedHeight;
    }
  }

  lemma {:induction false} RunKeepsCounted(t: TrackerState, run: seq<Timed>, v: VoteEvent)
    requires ArchiveOk(t) && CountedOrPast(t, v)
    ensures CountedOrPast(After(t, run), v)
  {
    hide ArchiveOk, CountedOrPast, Step, Later;
    if run != [] {
      RunKeepsCounted(t, run[..|run| - 1], v);
      RunIsLater(t, run[..|run| - 1]);
      LaterOk(t, After(t, run[..|run| - 1]));
      StepKeepsCounted(After(t, run[..|run| - 1]), run[|run| - 1], v);
    }
  }

  lemma CountingCounts(u: TrackerState, v: VoteEvent)
    ensures HasCounted(CountVote(u, v).tracker, v)
  {
    hide ReportOf, Fires;
  }

  lemma PastAfterIngest(u: TrackerState, w: TrackerState, v: VoteEvent)
    requires w.archive == u.archive && w.archiveEvictedThrough == u.archiveEvictedThrough
      && w.committedHeight == u.committedHeight
    requires v.height <= u.committedHeight || Dead(u, v.height, v.round)
    ensures CountedOrPast(w, v)
  {
    hide HasCounted;
  }

  lemma CountedIsCounted(w: TrackerState, v: VoteEvent)
    requires HasCounted(w, v)
    ensures CountedOrPast(w, v)
  {
    hide HasCounted, Dead;
  }

  /** An ingested vote is counted, too late, or left out of its round. */
  lemma IngestedIsCounted(t: TrackerState, v: VoteEvent, now: int)
    requires ArchiveOk(t) && ValidVote(v)
    ensures var w := IngestVote(t, v, now).tracker;
      CountedOrPast(w, v)
      || (w.Retained(v.height, v.round) && v.hash !in w.archive[v.height].rounds[v.round].Held(v.addr, v.kind))
  {
    var u, w := ObserveVote(t, v, now), IngestVote(t, v, now).tracker;
    Conservation.IngestKeepsArchive(t, v, now);
    assert u.Retained(v.height, v.round) && u.archive[v.height].rounds[v.round].Vote(v.addr, v.kind).None?
      ==> u.archive[v.height].rounds[v.round].Held(v.addr, v.kind) == {};
    assert HasVote(u, v) && v.height > u.committedHeight ==> w == CountVote(u, v).tracker by {
      hide ObserveVote, CountVote, HasVote;
    }
    ObservedIsSettled(t, v, now);
    hide ObserveVote, IngestVote, CountVote, ArchiveOk, Dead, CountedOrPast;
    if HasVote(u, v) && v.height > u.committedHeight {
      CountingCounts(u, v);
      CountedIsCounted(w, v);
    } else if v.height <= u.committedHeight || !u.Retained(v.height, v.round) {
      PastAfterIngest(u, w, v);
    }
  }

  lemma ObservedIsSettled(t: TrackerState, v: VoteEvent, now: int)
    requires ArchiveOk(t) && ValidVote(v)
    ensures var u := ObserveVote(t, v, now); u.Retained(v.height, v.round) || Dead(u, v.height, v.round)
  {
    hide ArchiveOk, Ages, CatalogueStep, QuietBlocks, QuietRounds, OnlyPruned, Locate, RecordVote, Dead;
    LocateIsQuiet(t, v.height, v.round, now);
    var u := Locate(t, v.height, v.round, now);
    if u.Retained(v.height, v.round) { RecordKeepsRounds(u.archive[v.height], v, now); }
  }

  lemma IngestStepIs(cfg: Config, run: seq<Timed>, i: nat)
    requires i < |run| && run[i].op.OpIngestVote?
    ensures Run(cfg, run[..i + 1]) == IngestVote(Run(cfg, run[..i]), run[i].op.v, run[i].now).tracker
  {
    RunStep(cfg, run, i);
    hide Run, IngestVote;
  }

  /** Right after its call an ingested vote is counted or past, or was left out. */
  lemma IngestedAt(cfg: Config, run: seq<Timed>, i: nat)
    requires i < |run| && run[i].op.OpIngestVote? && IsVote(run[i].op)
    ensures var w, v := Run(cfg, run[..i + 1]), run[i].op.v;
      CountedOrPast(w, v) || LeftOutAt(cfg, run, i, v.height, v.round)
  {
    var v := run[i].op.v;
    assert ValidVote(v);
    hide Run, IngestVote, ArchiveOk, CountedOrPast, ValidVote;
    RunOk(cfg, run[..i]);
    IngestStepIs(cfg, run, i);
    IngestedIsCounted(Run(cfg, run[..i]), v, run[i].now);
  }

  lemma CountedLater(cfg: Config, run: seq<Timed>, i: nat, v: VoteEvent)
    requires i <= |run| && CountedOrPast(Run(cfg, run[..i]), v)
    ensures CountedOrPast(Run(cfg, run), v)
  {
    assert run[..i] + run[i..] == run;
    AfterAppend(NewTracker(cfg), run[..i], run[i..]);
    RunOk(cfg, run[..i]);
    hide After, ArchiveOk, CountedOrPast;
    RunKeepsCounted(Run(cfg, run[..i]), run[i..], v);
  }

  /** At the end of the run an ingested vote is counted or past, or its round is marked truncated. */
  lemma IngestedStaysCounted(cfg: Config, run: seq<Timed>, i: nat)
    requires i < |run| && run[i].op.OpIngestVote? && IsVote(run[i].op)
    ensures var t, v := Run(cfg, run), run[i].op.v;
      CountedOrPast(t, v) || (t.Retained(v.height, v.round) ==> t.archive[v.height].rounds[v.round].truncated)
  {
    var v := run[i].op.v;
    hide Run, CountedOrPast, LeftOutAt, IsVote;
    IngestedAt(cfg, run, i);
    if CountedOrPast(Run(cfg, run[..i + 1]), v) {
      CountedLater(cfg, run, i + 1, v);
    } else if Run(cfg, run).Retained(v.height, v.round) {
      TruncatedExactly(cfg, run, v.height, v.round);
    }
  }

  lemma CountedAgain(t: TrackerState, v: VoteEvent)
    ensures CountVote(t, v).tracker == t <==> HasCounted(t, v)
    ensures HasCounted(t, v) ==> !CountVote(t, v).trigger
  {
    hide ReportOf, Fires;
    var key := KeyOf(v);
    if HasCounted(t, v) {
      assert t.rounds[key := t.rounds[key]] == t.rounds;
    } else {
      CountingCounts(t, v);
    }
  }

  lemma IngestCasesExactly(t: TrackerState, v: VoteEvent, now: int)
    ensures var u, x := ObserveVote(t, v, now), IngestVote(t, v, now);
      && x.tracker == u.(rounds := x.tracker.rounds)
      && x == if HasVote(u, v) && v.height > u.committedHeight then CountVote(u, v) else Ingested(u, None, false)
  {
    hide ObserveVote, HasVote, ReportOf, Fires, AddVote;
  }

  /** IngestVote of a vote whose observation drops no record. */
  lemma IngestedAgain(t: TrackerState, v: VoteEvent, now: int)
    requires ObserveVote(t, v, now).rounds == t.rounds
    ensures var x := IngestVote(t, v, now);
      && (x.tracker == t <==>
            ObserveVote(t, v, now) == t && (HasVote(t, v) && v.height > t.committedHeight ==> HasCounted(t, v)))
      && (x.tracker == t ==> !x.trigger)
  {
    hide ObserveVote, IngestVote, CountVote, HasVote, HasCounted;
    var u, x := ObserveVote(t, v, now), IngestVote(t, v, now);
    IngestCasesExactly(t, v, now);
    if x.tracker == t { assert u == t.(rounds := u.rounds) == t; }
    CountedAgain(t, v);
  }

  lemma RedeliveredKeepsRecords(cfg: Config, run: seq<Timed>, i: nat, now: int)
    requires i < |run| && IsVote(run[i].op)
    ensures var t, v := Run(cfg, run), run[i].op.v; ObserveVote(t, v, now).rounds == t.rounds
  {
    var t, v := Run(cfg, run), run[i].op.v;
    RunOk(cfg, run);
    assert ValidVote(v);
    DuplicateVoteChangesNothing(cfg, run, i, now);
    hide Run, ArchiveOk, ObserveVote, Accounted;
    if t.Retained(v.height, v.round) { ObservedAgain(t, v, now); }
  }

  /**
   A vote that was ingested anywhere in the run is ingested again. The tracker stays as it is if and only if the
   archive does, as above, and a vote it could still count was counted. Then no incident is triggered. In particular
   nothing changes while the round is not marked truncated, or when it is gone.
   */
  lemma DuplicateIngestChangesNothing(cfg: Config, run: seq<Timed>, i: nat, now: int)
    requires i < |run| && run[i].op.OpIngestVote? && IsVote(run[i].op)
    ensures var t, v := Run(cfg, run), run[i].op.v; var x := IngestVote(t, v, now);
      && (x.tracker == t <==>
            (!t.Retained(v.height, v.round) || Accounted(t.archive[v.height].rounds[v.round], v))
            && (HasVote(t, v) && v.height > t.committedHeight ==> HasCounted(t, v)))
      && (x.tracker == t ==> !x.trigger)
      && (!(t.Retained(v.height, v.round) && t.archive[v.height].rounds[v.round].truncated) ==> x.tracker == t)
  {
    var t, v := Run(cfg, run), run[i].op.v;
    DuplicateVoteChangesNothing(cfg, run, i, now);
    RedeliveredKeepsRecords(cfg, run, i, now);
    IngestedAgain(t, v, now);
    IngestedStaysCounted(cfg, run, i);
    assert HasVote(t, v) ==> t.Retained(v.height, v.round);
    hide Run, IngestVote, ObserveVote, Accounted, HasVote, IsVote, HasCounted;
  }

  // ---------- a redelivery that is recorded ----------

  /** An address of its own for each number. */
  function Name(i: nat): (s: string)
    ensures |s| == i + 1
  {
    seq(i + 1, _ => 'A')
  }

  function VoteOf(i: nat): VoteEvent { VoteEvent(1, 0, Prevote, Name(i), "H", None) }

  /** One prevote each from n validators nobody knows. */
  function Strangers(n: nat): seq<Timed>
  {
    if n == 0 then [] else Strangers(n - 1) + [Timed(OpObserveVote(VoteOf(n - 1)), 0)]
  }

  /** 65 unknown voters, and then the roster, which lists the last of them. */
  const LATE_ROSTER: seq<Timed> := Strangers(65) + [Timed(OpSetValidators([(Name(64), Validator(1, ""))]), 0)]

  ghost function Names(n: nat): set<string> { set i | 0 <= i < n :: Name(i) }

  lemma {:induction false} NamesMore(n: nat)
    ensures Names(n + 1) == Names(n) + {Name(n)} && Name(n) !in Names(n) && |Names(n)| == n
  {
    if n > 0 { NamesMore(n - 1); }
    assert Names(0) == {};
    forall i | 0 <= i < n ensures Name(i) != Name(n) { assert |Name(i)| != |Name(n)|; }
  }

  /** Round 0 of height 1 has votes of exactly those n, and no roster. */
  ghost predicate HeldByStrangers(t: TrackerState, n: nat)
  {
    t.Retained(1, 0) && t.archive[1].rounds[0].roster == map[] && t.archive[1].rounds[0].votes.Keys == Names(n)
  }

  lemma FirstHasRoom(cfg: Config)
    ensures RoomFor(NewTracker(cfg), 1, 0)
  {
  }

  lemma StrangersUnknown(rd: ArchivedRound, n: nat)
    requires rd.roster == map[] && rd.votes.Keys == Names(n)
    ensures rd.UnknownVoters() == Names(n) && |rd.UnknownVoters()| == n && Name(n) !in rd.votes
  {
    NamesMore(n);
    assert rd.UnknownVoters() == rd.votes.Keys;
  }

  lemma StrangerVotes(t: TrackerState, n: nat)
    requires ArchiveOk(t) && RoomFor(t, 1, 0) && n < 64
    requires var rd := EvidenceBefore(t, VoteOf(n), 0); rd.roster == map[] && rd.votes.Keys == Names(n)
    ensures HeldByStrangers(ObserveVote(t, VoteOf(n), 0), n + 1)
  {
    var rd := EvidenceBefore(t, VoteOf(n), 0);
    assert ValidVote(VoteOf(n));
    StrangersUnknown(rd, n);
    NamesMore(n);
    assert !Capped(rd, VoteOf(n));
    VoteFindsRoom(t, VoteOf(n), 0);
    RecordedVote(rd, VoteOf(n), 0);
    hide ArchiveOk, RoomFor, ObserveVote, RecordInRound, EvidenceBefore, OnlyPruned, Names;
  }

  lemma StrangersStep(cfg: Config, n: nat)
    ensures Run(cfg, Strangers(n + 1)) == ObserveVote(Run(cfg, Strangers(n)), VoteOf(n), 0)
  {
    assert Strangers(n + 1)[..|Strangers(n + 1)| - 1] == Strangers(n);
    hide ObserveVote, Strangers;
  }

  lemma FirstStranger(cfg: Config)
    ensures HeldByStrangers(Run(cfg, Strangers(1)), 1)
  {
    FirstHasRoom(cfg);
    NewTrackerOk(cfg);
    StrangersStep(cfg, 0);
    assert Run(cfg, Strangers(0)) == NewTracker(cfg);
    assert EvidenceBefore(NewTracker(cfg), VoteOf(0), 0).votes.Keys == Names(0);
    hide Run, Strangers, ArchiveOk, RoomFor, ObserveVote, Names;
    StrangerVotes(NewTracker(cfg), 0);
  }

  lemma NextStranger(t: TrackerState, n: nat)
    requires ArchiveOk(t) && HeldByStrangers(t, n) && n < 64
    ensures HeldByStrangers(ObserveVote(t, VoteOf(n), 0), n + 1)
  {
    hide ArchiveOk, ObserveVote, Names;
    StrangerVotes(t, n);
  }

  lemma {:induction false} StrangersFill(cfg: Config, n: nat)
    requires 1 <= n <= 64
    ensures HeldByStrangers(Run(cfg, Strangers(n)), n)
  {
    hide Run, Strangers, ArchiveOk, HeldByStrangers, ObserveVote;
    if n == 1 {
      FirstStranger(cfg);
    } else {
      StrangersFill(cfg, n - 1);
      RunOk(cfg, Strangers(n - 1));
      StrangersStep(cfg, n - 1);
      NextStranger(Run(cfg, Strangers(n - 1)), n - 1);
    }
  }

  lemma StrangerIsCapped(t: TrackerState)
    requires ArchiveOk(t) && HeldByStrangers(t, 64)
    ensures HeldByStrangers(ObserveVote(t, VoteOf(64), 0), 64)
  {
    var v := VoteOf(64);
    StrangersUnknown(t.archive[1].rounds[0], 64);
    assert ValidVote(v) && Capped(t.archive[1].rounds[0], v);
    hide ArchiveOk, ObserveVote, OnlyPruned, Names, Capped;
    VoteFindsRoom(t, v, 0);
  }

  /** The 65th is left out. */
  lemma LastIsCapped(cfg: Config)
    ensures HeldByStrangers(Run(cfg, Strangers(65)), 64)
  {
    hide Run, Strangers, ArchiveOk, HeldByStrangers, ObserveVote;
    RunOk(cfg, Strangers(64));
    StrangersFill(cfg, 64);
    StrangersStep(cfg, 64);
    StrangerIsCapped(Run(cfg, Strangers(64)));
  }

  lemma RosterArrives(t: TrackerState, vs: Listing)
    requires HeldByStrangers(t, 64) && vs == [(Name(64), Validator(1, ""))]
    ensures var u := SetValidators(t, vs);
      u.Retained(1, 0) && Name(64) in u.archive[1].rounds[0].roster && Name(64) !in u.archive[1].rounds[0].votes
  {
    NamesMore(64);
    assert vs[..0] == [];
    assert RosterOf(vs) == map[Name(64) := Validator(1, "")];
    hide Reweigh, RosterOf, TotalOf, Names;
  }

  /**
   Where a redelivery is recorded after all: the vote of a 65th unknown voter is left out, the roster arrives and lists
   that voter, and the same vote is delivered again. It moves the evidence.
   */
  lemma RedeliveryCanBeRecorded(cfg: Config, now: int)
    ensures |LATE_ROSTER| == 66 && LATE_ROSTER[64].op == OpObserveVote(VoteOf(64))
    ensures ObserveVote(Run(cfg, LATE_ROSTER), VoteOf(64), now) != Run(cfg, LATE_ROSTER)
  {
    StrangersAt(65);
    LastIsCapped(cfg);
    var t, vs := Run(cfg, Strangers(65)), [(Name(64), Validator(1, ""))];
    var e := Timed(OpSetValidators(vs), 0);
    assert LATE_ROSTER[..65] == Strangers(65);
    assert Run(cfg, LATE_ROSTER) == Step(t, e) by { hide Step; }
    assert Step(t, e) == SetValidators(t, vs) by { hide SetValidators; }
    RosterArrives(t, vs);
    var rd := Run(cfg, LATE_ROSTER).archive[1].rounds[0];
    assert !Accounted(rd, VoteOf(64)) by { hide Run, Strangers; }
    assert IsVote(LATE_ROSTER[64].op);
    hide Run, Step, SetValidators, Strangers, Accounted;
    DuplicateVoteChangesNothing(cfg, LATE_ROSTER, 64, now);
  }

  lemma {:induction false} StrangersAt(n: nat)
    requires n >= 1
    ensures |Strangers(n)| == n && Strangers(n)[n - 1] == Timed(OpObserveVote(VoteOf(n - 1)), 0)
  {
    if n > 1 { StrangersAt(n - 1); }
  }
}
