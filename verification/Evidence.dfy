/** What recording one vote, one proposer or one commit does to a block of the archive. */
module Evidence {
  import opened Common
  import opened TrackerTypes
  import opened Archive

  // ---------- hashes of a vote ----------

  lemma AppendHash(vote: PhaseVote, v: VoteEvent, now: int)
    ensures Appended(vote, v, now).Hashes() == vote.Hashes() + {v.hash}
  {
    var w := Appended(vote, v, now).hashes;
    assert w[|vote.hashes|].hash == v.hash;
    assert forall i :: 0 <= i < |vote.hashes| ==> w[i] == vote.hashes[i];
  }

  /** Without duplicates, the hashes held are as many as the entries listed. */
  lemma {:induction false} HashCount(hashes: seq<HashSeen>)
    requires forall i, j :: 0 <= i < j < |hashes| ==> hashes[i].hash != hashes[j].hash
    ensures |PhaseVote(hashes, false, false).Hashes()| == |hashes|
  {
    var all := PhaseVote(hashes, false, false).Hashes();
    if hashes == [] {
      assert all == {};
    } else {
      var front, last := hashes[..|hashes| - 1], hashes[|hashes| - 1];
      var rest := PhaseVote(front, false, false).Hashes();
      HashCount(front);
      assert last.hash !in rest;
      forall h ensures h in all <==> h in rest + {last.hash} {
        if h in all {
          var i :| 0 <= i < |hashes| && hashes[i].hash == h;
          if i < |front| { assert front[i].hash == h; }
        }
        if h in rest {
          var i :| 0 <= i < |front| && front[i].hash == h;
          assert hashes[i].hash == h;
        }
        if h == last.hash { assert hashes[|hashes| - 1].hash == h; }
      }
      assert all == rest + {last.hash};
    }
  }

  // ---------- recording a vote in a round ----------

  /** rd2 is rd after a vote v: its hash was added, or the round says that evidence was left out, and only then. */
  ghost predicate Recorded(rd: ArchivedRound, rd2: ArchivedRound, v: VoteEvent)
  {
    && (forall a, k :: (a != v.addr || k != v.kind) ==> rd2.Held(a, k) == rd.Held(a, k))
    && (rd2.Held(v.addr, v.kind) == rd.Held(v.addr, v.kind) + {v.hash}
        || (rd2.Held(v.addr, v.kind) == rd.Held(v.addr, v.kind) && rd2.truncated))
    && (rd2.truncated <==> rd.truncated || v.hash !in rd2.Held(v.addr, v.kind))
    && rd2.proposer == rd.proposer && rd2.roster == rd.roster && rd2.round == rd.round
  }

  lemma PutBallot(b: Ballot, kind: VoteType, vote: PhaseVote)
    requires kind != OtherType
    ensures b.Put(kind, vote).At(kind) == Some(vote)
    ensures forall k :: k != kind ==> b.Put(kind, vote).At(k) == b.At(k)
  {
  }

  /** Writing one phase of one ballot. */
  lemma WriteVote(rd: ArchivedRound, v: VoteEvent, vote: PhaseVote, rd2: ArchivedRound)
    requires v.kind != OtherType
    requires rd2.votes == WriteBallot(rd, v, vote)
    ensures rd2.Vote(v.addr, v.kind) == Some(vote)
    ensures forall a, k :: (a != v.addr || k != v.kind) ==> rd2.Vote(a, k) == rd.Vote(a, k)
  {
    PutBallot(if v.addr in rd.votes then rd.votes[v.addr] else NO_BALLOT, v.kind, vote);
  }

  lemma WriteHeld(rd: ArchivedRound, v: VoteEvent, vote: PhaseVote, rd2: ArchivedRound)
    requires v.kind != OtherType
    requires rd2.votes == WriteBallot(rd, v, vote)
    ensures rd2.Held(v.addr, v.kind) == vote.Hashes()
    ensures forall a, k :: (a != v.addr || k != v.kind) ==> rd2.Held(a, k) == rd.Held(a, k)
  {
    WriteVote(rd, v, vote, rd2);
  }

  /** The new voter, if it is outside the roster, fits under the cap. */
  lemma UnknownGrows(rd: ArchivedRound, a: string, ballot: Ballot, rd2: ArchivedRound)
    requires rd2.votes == rd.votes[a := ballot] && rd2.roster == rd.roster
    requires |rd.UnknownVoters()| <= UNKNOWN_LIMIT
    requires a in rd.votes || a in rd.roster || |rd.UnknownVoters()| < UNKNOWN_LIMIT
    ensures |rd2.UnknownVoters()| <= UNKNOWN_LIMIT
  {
    if a in rd.votes || a in rd.roster {
      assert rd2.UnknownVoters() == rd.UnknownVoters();
    } else {
      assert rd2.UnknownVoters() == rd.UnknownVoters() + {a};
    }
  }

  lemma WriteRoundOk(r: int, rd: ArchivedRound, v: VoteEvent, vote: PhaseVote, rd2: ArchivedRound)
    requires RoundOk(r, rd) && ValidVote(v) && rd2.round == rd.round && rd2.roster == rd.roster
    requires rd2.votes == WriteBallot(rd, v, vote)
    requires v.addr in rd.votes || v.addr in rd.roster || |rd.UnknownVoters()| < UNKNOWN_LIMIT
    requires VoteOk(vote, rd2.truncated) && (rd.truncated ==> rd2.truncated)
    ensures RoundOk(r, rd2)
  {
    var ballot := (if v.addr in rd.votes then rd.votes[v.addr] else NO_BALLOT).Put(v.kind, vote);
    UnknownGrows(rd, v.addr, ballot, rd2);
    assert BallotOk(ballot, rd2.truncated);
  }

  lemma PresentOk(r: int, rd: ArchivedRound, v: VoteEvent)
    requires RoundOk(r, rd) && v.kind != OtherType && Present(rd, v) != NO_HASHES
    ensures VoteOk(Present(rd, v), rd.truncated) && v.addr in rd.votes
  {
  }

  lemma AppendOk(rd: ArchivedRound, v: VoteEvent, now: int, truncated: bool)
    requires Present(rd, v) != NO_HASHES ==> VoteOk(Present(rd, v), truncated)
    requires v.hash !in Present(rd, v).Hashes() && |Present(rd, v).hashes| < HASH_LIMIT
    ensures VoteOk(Appended(Present(rd, v), v, now), truncated)
  {
    var vote := Present(rd, v);
    forall i | 0 <= i < |vote.hashes| ensures vote.hashes[i].hash != v.hash {
      assert vote.hashes[i].hash in vote.Hashes();
    }
  }

  lemma RecordInRoundOk(r: int, rd: ArchivedRound, v: VoteEvent, now: int)
    requires RoundOk(r, rd) && ValidVote(v)
    ensures RoundOk(r, RecordInRound(rd, v, now))
  {
    var rd2, vote := RecordInRound(rd, v, now), Present(rd, v);
    if vote != NO_HASHES { PresentOk(r, rd, v); }
    if Capped(rd, v) {
      assert rd2.UnknownVoters() == rd.UnknownVoters();
      TruncateOk(r, rd);
    } else if v.hash in vote.Hashes() {
    } else if |vote.hashes| >= HASH_LIMIT {
      WriteRoundOk(r, rd, v, vote.(truncated := true, conflicting := true), rd2);
    } else {
      AppendOk(rd, v, now, rd.truncated);
      WriteRoundOk(r, rd, v, Appended(vote, v, now), rd2);
    }
  }

  lemma TruncateOk(r: int, rd: ArchivedRound)
    requires RoundOk(r, rd)
    ensures RoundOk(r, rd.(truncated := true))
  {
    assert rd.(truncated := true).UnknownVoters() == rd.UnknownVoters();
  }

  lemma RecordedInRound(rd: ArchivedRound, v: VoteEvent, now: int)
    requires v.kind != OtherType
    ensures Recorded(rd, RecordInRound(rd, v, now), v)
  {
    var rd2, vote := RecordInRound(rd, v, now), Present(rd, v);
    assert rd.Held(v.addr, v.kind) == vote.Hashes() by { HeldIsPresent(rd, v); }
    if Capped(rd, v) {
    } else if v.hash in vote.Hashes() {
      assert vote.Hashes() + {v.hash} == vote.Hashes();
    } else if |vote.hashes| >= HASH_LIMIT {
      WriteHeld(rd, v, vote.(truncated := true, conflicting := true), rd2);
      assert vote.(truncated := true, conflicting := true).Hashes() == vote.Hashes();
    } else {
      AppendHash(vote, v, now);
      WriteHeld(rd, v, Appended(vote, v, now), rd2);
    }
  }

  lemma HeldIsPresent(rd: ArchivedRound, v: VoteEvent)
    ensures rd.Held(v.addr, v.kind) == Present(rd, v).Hashes()
  {
    assert NO_HASHES.Hashes() == {};
  }

  /** The revision moves exactly when the recorded vote changed something. */
  lemma RecordRevises(b: ArchivedHeight, v: VoteEvent, now: int)
    requires v.round in b.rounds && v.kind != OtherType
    ensures RevisionStep(b, RecordVote(b, v, now))
  {
    var rd, c := b.rounds[v.round], RecordVote(b, v, now);
    var vote := Present(rd, v);
    assert c.rounds[v.round] == RecordInRound(rd, v, now);
    if Capped(rd, v) {
      if rd.truncated { assert b.rounds[v.round := rd] == b.rounds; }
    } else if v.hash in vote.Hashes() {
      assert b.rounds[v.round := rd] == b.rounds;
    } else if |vote.hashes| >= HASH_LIMIT {
      FullRevises(b, v, now);
    } else {
      WriteVote(rd, v, Appended(vote, v, now), c.rounds[v.round]);
      assert c.rounds[v.round].Vote(v.addr, v.kind) != rd.Vote(v.addr, v.kind);
    }
  }

  lemma FullRevises(b: ArchivedHeight, v: VoteEvent, now: int)
    requires v.round in b.rounds && v.kind != OtherType
    requires var rd := b.rounds[v.round];
      v.hash !in Present(rd, v).Hashes() && |Present(rd, v).hashes| >= HASH_LIMIT && v.addr in rd.votes
    ensures RevisionStep(b, RecordVote(b, v, now))
  {
    var rd, c := b.rounds[v.round], RecordVote(b, v, now);
    var vote := Present(rd, v);
    var full := vote.(truncated := true, conflicting := true);
    WriteVote(rd, v, full, c.rounds[v.round]);
    if vote.truncated && vote.conflicting && rd.truncated {
      assert full == vote && rd.votes[v.addr].Put(v.kind, full) == rd.votes[v.addr];
      assert rd.votes[v.addr := rd.votes[v.addr]] == rd.votes;
      assert b.rounds[v.round := rd] == b.rounds;
    }
  }
}
