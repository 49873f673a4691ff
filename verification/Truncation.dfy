/** When the archive marks a round truncated: exactly when it leaves out a hash it was given. */
module Truncation {
  import opened Common
  import opened TrackerTypes
  import opened Archive
  import opened Evidence
  import opened Detector
  import opened Tracker
  import opened TrackerRuns
  import opened Oracle
  import Conservation

  /** The call observes a vote for round r of h whose hash the round does not hold afterwards. */
  ghost predicate Drops(op: Op, rd: ArchivedRound, h: int, r: int)
  {
    IsVote(op) && op.v.height == h && op.v.round == r && op.v.hash !in rd.Held(op.v.addr, op.v.kind)
  }

  ghost predicate WasTruncated(t: TrackerState, h: int, r: int)
  {
    t.Retained(h, r) && t.archive[h].rounds[r].truncated
  }

  ghost predicate TruncationKept(t: TrackerState, u: TrackerState)
  {
    forall h, r :: u.Retained(h, r) ==> (WasTruncated(u, h, r) <==> WasTruncated(t, h, r))
  }

  /** A retained round is marked by the step exactly when the step leaves out the hash it observes. */
  ghost predicate MarksExactly(t: TrackerState, u: TrackerState, op: Op)
  {
    forall h, r :: u.Retained(h, r) ==>
      (WasTruncated(u, h, r) <==> WasTruncated(t, h, r) || Drops(op, u.archive[h].rounds[r], h, r))
  }

  lemma KeptTruncation(t: TrackerState, u: TrackerState)
    requires EvidenceKept(t, u)
    ensures TruncationKept(t, u)
  {
    forall h, r | u.Retained(h, r) ensures WasTruncated(u, h, r) <==> WasTruncated(t, h, r) {
      assert KeptRound(t, u, h, r);
    }
  }

  lemma SilentMarks(t: TrackerState, u: TrackerState, op: Op)
    requires TruncationKept(t, u) && !IsVote(op)
    ensures MarksExactly(t, u, op)
  {
    hide WasTruncated, IsVote;
  }

  lemma LocateTruncation(t: TrackerState, h: int, r: int, now: int)
    requires ArchiveOk(t)
    ensures TruncationKept(t, Locate(t, h, r, now))
  {
    LocateIsQuiet(t, h, r, now);
    QuietIsKept(t, Locate(t, h, r, now), h, r, now);
    hide *;
    KeptTruncation(t, Locate(t, h, r, now));
  }

  // ---------- votes ----------

  /** Recording a vote in a located tracker marks its round exactly when the hash is left out. */
  lemma RecordMarks(t: TrackerState, u: TrackerState, op: Op, now: int)
    requires TruncationKept(t, u) && IsVote(op) && u.Retained(op.v.height, op.v.round)
    ensures MarksExactly(t, u.(archive := u.archive[op.v.height := RecordVote(u.archive[op.v.height], op.v, now)]), op)
  {
    var v := op.v;
    var b := u.archive[v.height];
    var c := RecordVote(b, v, now);
    var w := u.(archive := u.archive[v.height := c]);
    RecordedInRound(b.rounds[v.round], v, now);
    RecordKeepsRounds(b, v, now);
    assert c.rounds[v.round] == RecordInRound(b.rounds[v.round], v, now);
    assert forall y :: y in c.rounds && y != v.round ==> c.rounds[y] == b.rounds[y];
    hide RecordVote, RecordInRound;
    forall x, y | w.Retained(x, y)
      ensures WasTruncated(w, x, y) <==> WasTruncated(t, x, y) || Drops(op, w.archive[x].rounds[y], x, y)
    {
      assert u.Retained(x, y) && (WasTruncated(u, x, y) <==> WasTruncated(t, x, y));
    }
  }

  lemma MissedMarks(t: TrackerState, u: TrackerState, op: Op)
    requires TruncationKept(t, u) && IsVote(op) && !u.Retained(op.v.height, op.v.round)
    ensures MarksExactly(t, u, op)
  {
    hide WasTruncated, IsVote;
  }

  lemma VoteMarks(t: TrackerState, op: Op, now: int)
    requires ArchiveOk(t) && (op.OpObserveVote? || op.OpIngestVote?)
    ensures MarksExactly(t, ObserveVote(t, op.v, now), op)
  {
    hide ArchiveOk, MarksExactly, TruncationKept, Locate, RecordVote;
    if ValidVote(op.v) {
      var u := Locate(t, op.v.height, op.v.round, now);
      LocateTruncation(t, op.v.height, op.v.round, now);
      if u.Retained(op.v.height, op.v.round) {
        RecordMarks(t, u, op, now);
      } else {
        MissedMarks(t, u, op);
      }
    } else {
      SameTruncation(t, t);
      SilentMarks(t, t, op);
    }
  }

  lemma SameTruncation(t: TrackerState, u: TrackerState)
    requires u.archive == t.archive
    ensures TruncationKept(t, u)
  {
  }

  lemma SameArchiveMarks(t: TrackerState, u: TrackerState, w: TrackerState, op: Op)
    requires MarksExactly(t, u, op) && w.archive == u.archive
    ensures MarksExactly(t, w, op)
  {
    hide Drops;
  }

  // ---------- the other steps ----------

  lemma ProposeTruncation(t: TrackerState, u: TrackerState, h: int, r: int, proposer: string, now: int)
    requires TruncationKept(t, u) && u.Retained(h, r)
    ensures TruncationKept(t, u.(archive := u.archive[h := Propose(u.archive[h], r, proposer, now)]))
  {
    var c := Propose(u.archive[h], r, proposer, now);
    var w := u.(archive := u.archive[h := c]);
    assert forall y ::
      y in c.rounds ==> y in u.archive[h].rounds && c.rounds[y].truncated == u.archive[h].rounds[y].truncated;
    hide Propose;
    forall x, y | w.Retained(x, y) ensures WasTruncated(w, x, y) <==> WasTruncated(t, x, y) {
      assert u.Retained(x, y) && (WasTruncated(u, x, y) <==> WasTruncated(t, x, y));
    }
  }

  lemma RoundTruncation(t: TrackerState, h: int, r: int, proposer: string, now: int)
    requires ArchiveOk(t)
    ensures TruncationKept(t, ObserveRound(t, h, r, proposer, now))
  {
    hide ArchiveOk, TruncationKept, Locate, Propose;
    SameTruncation(t, t);
    if !(h <= 0 || r < 0 || r > MAX_ROUND || |proposer| > IDENTITY_LIMIT) {
      var u := Locate(t, h, r, now);
      LocateTruncation(t, h, r, now);
      if u.Retained(h, r) { ProposeTruncation(t, u, h, r, proposer, now); }
    }
  }

  lemma CommitTruncation(t: TrackerState, h: int, hash: string, now: int)
    requires ArchiveOk(t)
    ensures TruncationKept(t, ResolveCommit(t, h, hash, now))
  {
    hide *;
    CommitKept(t, h, hash, now);
    ResolveKeepsArchive(t, h, hash, now);
    KeptTruncation(t, ArchiveCommit(t, h, hash, now));
    SameArchiveKept(t, ArchiveCommit(t, h, hash, now), ResolveCommit(t, h, hash, now));
  }

  lemma SameArchiveKept(t: TrackerState, u: TrackerState, w: TrackerState)
    requires TruncationKept(t, u) && w.archive == u.archive
    ensures TruncationKept(t, w)
  {
  }

  /** Every step marks rounds exactly when it leaves out the hash it observes, and never unmarks one. */
  lemma StepMarksExactly(t: TrackerState, e: Timed)
    requires ArchiveOk(t)
    ensures MarksExactly(t, Step(t, e), e.op)
  {
    hide ArchiveOk, MarksExactly, TruncationKept, SetValidators, ObserveRound, ObserveVote, IngestVote,
      MarkRoundAdvanced, ResolveCommit;
    match e.op
    case OpSetValidators(vs) =>
      SeedKept(t, vs);
      KeptTruncation(t, SetValidators(t, vs)) by { hide EvidenceKept; }
      SilentMarks(t, Step(t, e), e.op);
    case OpObserveRound(h, r, proposer) =>
      RoundTruncation(t, h, r, proposer, e.now);
      SilentMarks(t, Step(t, e), e.op);
    case OpObserveVote(v) => VoteMarks(t, e.op, e.now);
    case OpIngestVote(v) =>
      VoteMarks(t, e.op, e.now);
      Conservation.IngestKeepsArchive(t, v, e.now);
      SameArchiveMarks(t, ObserveVote(t, v, e.now), Step(t, e), e.op);
    case OpMarkRoundAdvanced(h, r) =>
      assert MarkRoundAdvanced(t, h, r).archive == t.archive by { MarkKeepsArchive(t, h, r); }
      SameTruncation(t, Step(t, e));
      SilentMarks(t, Step(t, e), e.op);
    case OpResolveCommit(h, hash) =>
      CommitTruncation(t, h, hash, e.now);
      SilentMarks(t, Step(t, e), e.op);
  }

  lemma MarkKeepsArchive(t: TrackerState, h: int, r: int)
    ensures MarkRoundAdvanced(t, h, r).archive == t.archive
  {
  }

  // ---------- runs ----------

  /** Call i of the run left out the hash it observed for round r of h, which was retained. */
  ghost predicate LeftOutAt(cfg: Config, run: seq<Timed>, i: nat, h: int, r: int)
    requires i < |run|
  {
    var u := Run(cfg, run[..i + 1]);
    u.Retained(h, r) && Drops(run[i].op, u.archive[h].rounds[r], h, r)
  }

  ghost predicate SomeLeftOut(cfg: Config, run: seq<Timed>, h: int, r: int)
  {
    exists i :: 0 <= i < |run| && LeftOutAt(cfg, run, i, h, r)
  }

  lemma LeftOutLonger(cfg: Config, run: seq<Timed>, more: seq<Timed>, h: int, r: int)
    requires SomeLeftOut(cfg, run, h, r)
    ensures SomeLeftOut(cfg, run + more, h, r)
  {
    var i :| 0 <= i < |run| && LeftOutAt(cfg, run, i, h, r);
    assert (run + more)[..i + 1] == run[..i + 1] && (run + more)[i] == run[i];
    hide Run, Drops;
    assert LeftOutAt(cfg, run + more, i, h, r);
  }

  lemma RetainedBetween(cfg: Config, run: seq<Timed>, more: seq<Timed>, last: seq<Timed>, h: int, r: int)
    requires Run(cfg, run).Retained(h, r) && Run(cfg, run + more + last).Retained(h, r)
    ensures Run(cfg, run + more).Retained(h, r)
  {
    hide Run, Dead;
    NoResurrection(cfg, run, more, last, h, r);
  }

  /** The round was retained right after something was left out of it. */
  lemma LeftOutRetained(cfg: Config, run: seq<Timed>, h: int, r: int) returns (i: nat)
    requires SomeLeftOut(cfg, run, h, r)
    ensures i <= |run| && Run(cfg, run[..i]).Retained(h, r)
  {
    hide Run, Drops;
    var j :| 0 <= j < |run| && LeftOutAt(cfg, run, j, h, r);
    i := j + 1;
  }

  /** What was left out of a round that is retained at the end was left out of a round retained throughout. */
  lemma LeftOutWasRetained(cfg: Config, front: seq<Timed>, e: Timed, h: int, r: int)
    requires SomeLeftOut(cfg, front, h, r) && Run(cfg, front + [e]).Retained(h, r)
    ensures Run(cfg, front).Retained(h, r)
  {
    hide *;
    var i := LeftOutRetained(cfg, front, h, r);
    var before, after := front[..i], front[i..];
    assert before + after == front;
    RetainedBetween(cfg, before, after, [e], h, r);
  }

  lemma LeftOutMore(cfg: Config, front: seq<Timed>, e: Timed, h: int, r: int)
    ensures SomeLeftOut(cfg, front + [e], h, r) <==>
      SomeLeftOut(cfg, front, h, r) || LeftOutAt(cfg, front + [e], |front|, h, r)
  {
    var run := front + [e];
    hide Run, Drops;
    if SomeLeftOut(cfg, front, h, r) { LeftOutLonger(cfg, front, [e], h, r); }
    if SomeLeftOut(cfg, run, h, r) {
      var i :| 0 <= i < |run| && LeftOutAt(cfg, run, i, h, r);
      if i < |front| {
        assert run[..i + 1] == front[..i + 1] && run[i] == front[i];
        assert LeftOutAt(cfg, front, i, h, r);
      }
    }
  }

  /** A retained round is marked truncated if and only if some call of the run left a hash out of it. */
  lemma {:induction false} TruncatedExactly(cfg: Config, run: seq<Timed>, h: int, r: int)
    requires Run(cfg, run).Retained(h, r)
    ensures Run(cfg, run).archive[h].rounds[r].truncated <==>
      exists i :: 0 <= i < |run| && LeftOutAt(cfg, run, i, h, r)
  {
    if run != [] {
      var front, e := run[..|run| - 1], run[|run| - 1];
      var t, u := Run(cfg, front), Run(cfg, run);
      assert run == front + [e] && run[..|front| + 1] == run;
      RunOk(cfg, front);
      StepMarksExactly(t, e);
      assert u == Step(t, e) by { hide Step; }
      assert LeftOutAt(cfg, run, |front|, h, r) == Drops(e.op, u.archive[h].rounds[r], h, r) by { hide Run, Drops; }
      if t.Retained(h, r) { TruncatedExactly(cfg, front, h, r); }
      hide Run, Step, ArchiveOk, Drops, LeftOutAt;
      LeftOutMore(cfg, front, e, h, r);
      if SomeLeftOut(cfg, front, h, r) { LeftOutWasRetained(cfg, front, e, h, r); }
    }
  }
}
