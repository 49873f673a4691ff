/**
 internal/divergence/archive.go: the steps of the evidence archive as functions on the tracker's
 value, and the facts about them that every run property uses.
 */
module Archive {
  import opened Common
  import opened TrackerTypes

  // ---------- admission and eviction ----------

  function NewBlock(h: int, now: int): ArchivedHeight
  {
    ArchivedHeight(1, h, map[], now, now, false, "", 0, 0, 0, 0, -1)
  }

  function NewRound(r: int, roster: Roster, now: int): ArchivedRound
  {
    ArchivedRound(r, "", now, now, roster, map[], false)
  }

  /** pruneDetectorRoundsLocked: a detector key lives only as long as its archived round. */
  function PruneDetector(t: TrackerState): TrackerState
  {
    t.(rounds := map k | k in t.rounds && t.Retained(k.height, k.round) :: t.rounds[k])
  }

  ghost function EvictOldestHeight(t: TrackerState): TrackerState
    requires t.archive.Keys != {}
  {
    var oldest := SetMin(t.archive.Keys);
    PruneDetector(t.(archive := t.archive - {oldest}, archiveEvictedThrough := Max(t.archiveEvictedThrough, oldest)))
  }

  function InsertHeight(t: TrackerState, h: int, now: int): TrackerState
  {
    t.(archive := t.archive[h := NewBlock(h, now)],
       catalogueRevision := t.catalogueRevision + 1,
       archiveLatestHeight := Max(t.archiveLatestHeight, h))
  }

  /** createArchiveHeightLocked; the returned block is non-nil exactly when h is retained afterwards. */
  ghost function CreateHeight(t: TrackerState, h: int, now: int): TrackerState
  {
    if h <= 0 || h <= t.archiveEvictedThrough || h in t.archive then t else
      var grown := InsertHeight(t, h, now);
      if |grown.archive| > t.cfg.historySize then EvictOldestHeight(grown) else grown
  }

  /** archiveHeightLocked */
  ghost function EnsureHeight(t: TrackerState, h: int, now: int): TrackerState
  {
    if h <= 0 || h <= t.archiveEvictedThrough || h in t.archive || h <= t.committedHeight then t
    else CreateHeight(t, h, now)
  }

  function InsertRound(b: ArchivedHeight, r: int, roster: Roster, now: int): ArchivedHeight
  {
    b.(rounds := b.rounds[r := NewRound(r, roster, now)],
       revision := b.revision + 1,
       firstRound := if b.roundsObserved == 0 || r < b.firstRound then r else b.firstRound,
       lastRound := if b.roundsObserved == 0 || r > b.lastRound then r else b.lastRound,
       roundsObserved := b.roundsObserved + 1,
       lastSeen := now)
  }

  ghost function EvictOldestRound(b: ArchivedHeight): ArchivedHeight
    requires b.rounds.Keys != {}
  {
    var oldest := SetMin(b.rounds.Keys);
    b.(rounds := b.rounds - {oldest}, evictedThrough := oldest, roundsEvicted := b.roundsEvicted + 1)
  }

  /** archiveRoundLocked */
  ghost function EnsureRound(t: TrackerState, h: int, r: int, now: int): TrackerState
    requires h in t.archive
  {
    var b := t.archive[h];
    if r < 0 || r <= b.evictedThrough || r in b.rounds || b.committed || b.height <= t.committedHeight then t else
      var grown := InsertRound(b, r, t.defaultValidators, now);
      if |grown.rounds| > ROUND_LIMIT then PruneDetector(t.(archive := t.archive[h := EvictOldestRound(grown)]))
      else t.(archive := t.archive[h := grown])
  }

  ghost function Locate(t: TrackerState, h: int, r: int, now: int): TrackerState
  {
    var found := EnsureHeight(t, h, now);
    if h in found.archive then EnsureRound(found, h, r, now) else found
  }

  // ---------- observations ----------

  /** ObserveRound */
  ghost function ObserveRound(t: TrackerState, h: int, r: int, proposer: string, now: int): TrackerState
  {
    if h <= 0 || r < 0 || r > MAX_ROUND || |proposer| > IDENTITY_LIMIT then t else
      var located := Locate(t, h, r, now);
      if !located.Retained(h, r) then located else
        located.(archive := located.archive[h := Propose(located.archive[h], r, proposer, now)])
  }

  function Propose(b: ArchivedHeight, r: int, proposer: string, now: int): ArchivedHeight
    requires r in b.rounds
  {
    if proposer == "" || b.rounds[r].proposer == proposer then b else
      b.(rounds := b.rounds[r := b.rounds[r].(proposer := proposer, lastSeen := now)],
         lastSeen := now, revision := b.revision + 1)
  }

  predicate ValidVote(v: VoteEvent)
  {
    && v.height > 0 && 0 <= v.round <= MAX_ROUND
    && v.addr != "" && |v.addr| <= IDENTITY_LIMIT && |v.hash| <= IDENTITY_LIMIT
    && v.kind != OtherType
  }

  function Present(rd: ArchivedRound, v: VoteEvent): PhaseVote
  {
    if rd.Vote(v.addr, v.kind).Some? then rd.Vote(v.addr, v.kind).value else NO_HASHES
  }

  /** A voter the round does not know, when the cap on such voters is reached. */
  predicate Capped(rd: ArchivedRound, v: VoteEvent)
  {
    v.addr !in rd.votes && v.addr !in rd.roster && |rd.UnknownVoters()| >= UNKNOWN_LIMIT
  }

  predicate Appends(rd: ArchivedRound, v: VoteEvent)
  {
    !Capped(rd, v) && v.hash !in Present(rd, v).Hashes() && |Present(rd, v).hashes| < HASH_LIMIT
  }

  function Appended(vote: PhaseVote, v: VoteEvent, now: int): PhaseVote
  {
    vote.(hashes := vote.hashes + [HashSeen(v.hash, now, v.signedAt)], conflicting := |vote.hashes| + 1 > 1)
  }

  function WriteBallot(rd: ArchivedRound, v: VoteEvent, vote: PhaseVote): map<string, Ballot>
  {
    rd.votes[v.addr := (if v.addr in rd.votes then rd.votes[v.addr] else NO_BALLOT).Put(v.kind, vote)]
  }

  /** The evidence part of observeVoteLocked, once the round is found. */
  function RecordInRound(rd: ArchivedRound, v: VoteEvent, now: int): ArchivedRound
  {
    var vote := Present(rd, v);
    if Capped(rd, v) then rd.(truncated := true)
    else if v.hash in vote.Hashes() then rd
    else if |vote.hashes| >= HASH_LIMIT then
      rd.(votes := WriteBallot(rd, v, vote.(truncated := true, conflicting := true)), truncated := true)
    else rd.(votes := WriteBallot(rd, v, Appended(vote, v, now)), lastSeen := now)
  }

  /** When observeVoteLocked bumps the block's revision. */
  predicate RecordBumps(rd: ArchivedRound, v: VoteEvent)
  {
    var vote := Present(rd, v);
    if Capped(rd, v) then !rd.truncated
    else if v.hash in vote.Hashes() then false
    else if |vote.hashes| >= HASH_LIMIT then !vote.truncated || !vote.conflicting || !rd.truncated
    else true
  }

  function RecordVote(b: ArchivedHeight, v: VoteEvent, now: int): ArchivedHeight
    requires v.round in b.rounds
  {
    var rd := b.rounds[v.round];
    b.(rounds := b.rounds[v.round := RecordInRound(rd, v, now)],
       lastSeen := if Appends(rd, v) then now else b.lastSeen,
       revision := if RecordBumps(rd, v) then b.revision + 1 else b.revision)
  }

  /** observeVoteLocked */
  ghost function ObserveVote(t: TrackerState, v: VoteEvent, now: int): TrackerState
  {
    if !ValidVote(v) then t else
      var located := Locate(t, v.height, v.round, now);
      if !located.Retained(v.height, v.round) then located else
        located.(archive := located.archive[v.height := RecordVote(located.archive[v.height], v, now)])
  }

  function CommitBlock(b: ArchivedHeight, hash: string, now: int): ArchivedHeight
  {
    if !b.committed || (b.canonicalHash == "" && hash != "") then
      b.(committed := true, canonicalHash := hash, lastSeen := now, revision := b.revision + 1)
    else b
  }

  /** archiveCommitLocked */
  ghost function ArchiveCommit(t: TrackerState, h: int, hash: string, now: int): TrackerState
  {
    if |hash| > IDENTITY_LIMIT then t else
      var created := CreateHeight(t, h, now);
      if h !in created.archive then created else
        created.(archive := created.archive[h := CommitBlock(created.archive[h], hash, now)])
  }

  function Unfilled(b: ArchivedHeight): set<int> { set r | r in b.rounds && |b.rounds[r].roster| == 0 }

  /** The archive half of SetValidators for one block: rounds without a roster receive m. */
  function Backfill(b: ArchivedHeight, m: Roster): ArchivedHeight
  {
    b.(rounds := map r | r in b.rounds :: if |b.rounds[r].roster| == 0 then b.rounds[r].(roster := m) else b.rounds[r],
       revision := b.revision + if |m| > 0 then |Unfilled(b)| else 0)
  }

  /** InvestigationCoverage.MissingRounds */
  function MissingRounds(b: ArchivedHeight): int
  {
    if b.roundsObserved > 0 then b.lastRound - b.roundsObserved + 1 else 0
  }

  // ---------- invariant ----------

  ghost predicate VoteOk(v: PhaseVote, truncatedRound: bool)
  {
    && 1 <= |v.hashes| <= HASH_LIMIT
    && (forall i, j :: 0 <= i < j < |v.hashes| ==> v.hashes[i].hash != v.hashes[j].hash)
    && v.conflicting == (|v.hashes| >= 2)
    && (v.truncated ==> |v.hashes| == HASH_LIMIT && truncatedRound)
  }

  ghost predicate BallotOk(ballot: Ballot, truncatedRound: bool)
  {
    && (ballot.prevote.Some? || ballot.precommit.Some?)
    && (ballot.prevote.Some? ==> VoteOk(ballot.prevote.value, truncatedRound))
    && (ballot.precommit.Some? ==> VoteOk(ballot.precommit.value, truncatedRound))
  }

  ghost predicate RoundOk(r: int, rd: ArchivedRound)
  {
    && rd.round == r && 0 <= r
    && |rd.UnknownVoters()| <= UNKNOWN_LIMIT
    && (forall a :: a in rd.votes ==> a != "" && |a| <= IDENTITY_LIMIT && BallotOk(rd.votes[a], rd.truncated))
  }

  ghost predicate CountersOk(b: ArchivedHeight)
  {
    && b.revision >= 1 && b.roundsEvicted >= 0 && b.evictedThrough >= -1
    && b.roundsObserved == |b.rounds| + b.roundsEvicted
    && (b.roundsEvicted == 0 <==> b.evictedThrough == -1)
    && (b.roundsObserved > 0 ==> 0 <= b.firstRound <= b.lastRound && b.evictedThrough <= b.lastRound)
  }

  ghost predicate RoundsOk(b: ArchivedHeight)
  {
    forall r :: r in b.rounds ==> b.evictedThrough < r <= b.lastRound && b.firstRound <= r && RoundOk(r, b.rounds[r])
  }

  ghost predicate BlockOk(h: int, b: ArchivedHeight)
  {
    b.height == h && |b.rounds| <= ROUND_LIMIT && CountersOk(b) && RoundsOk(b)
  }

  ghost predicate ArchiveOk(t: TrackerState)
  {
    && 1 <= t.cfg.historySize
    && |t.archive| <= t.cfg.historySize
    && 0 <= t.archiveEvictedThrough && 0 <= t.committedHeight
    && (forall h :: h in t.archive ==> t.archiveEvictedThrough < h <= t.archiveLatestHeight && BlockOk(h, t.archive[h]))
    && (forall k :: k in t.rounds ==> t.Retained(k.height, k.round) && k.kind != OtherType)
  }

  // ---------- dead and admissible contexts ----------

  /** A round that is not retained but could still be created by a later observation. */
  ghost predicate Admissible(t: TrackerState, h: int, r: int)
  {
    && h > 0 && r >= 0 && h > t.archiveEvictedThrough && h > t.committedHeight
    && (h in t.archive ==> !t.archive[h].committed && r > t.archive[h].evictedThrough && r !in t.archive[h].rounds)
  }

  ghost predicate Dead(t: TrackerState, h: int, r: int)
  {
    !t.Retained(h, r) && !Admissible(t, h, r)
  }

  /** How a step may change the archive: nothing returns from the dead, everything new was admissible. */
  ghost predicate Ages(t: TrackerState, u: TrackerState)
  {
    && u.cfg == t.cfg
    && t.archiveEvictedThrough <= u.archiveEvictedThrough
    && t.committedHeight <= u.committedHeight
    && t.archiveLatestHeight <= u.archiveLatestHeight
    && t.catalogueRevision <= u.catalogueRevision
    && (forall h :: h in t.archive && h !in u.archive ==> h <= u.archiveEvictedThrough)
    && (forall h :: h in t.archive && h in u.archive ==>
          && t.archive[h].evictedThrough <= u.archive[h].evictedThrough
          && (t.archive[h].committed ==> u.archive[h].committed)
          && (forall r :: r in t.archive[h].rounds && r !in u.archive[h].rounds ==> r <= u.archive[h].evictedThrough)
          && (forall r :: r in u.archive[h].rounds && r !in t.archive[h].rounds ==> Admissible(t, h, r)))
    && (forall h :: h in u.archive && h !in t.archive ==>
          && h > 0 && h > t.archiveEvictedThrough
          && (forall r :: r in u.archive[h].rounds ==> Admissible(t, h, r)))
  }

  lemma AgesTransitive(t: TrackerState, u: TrackerState, w: TrackerState)
    requires Ages(t, u) && Ages(u, w) && ArchiveOk(w) && ArchiveOk(u)
    ensures Ages(t, w)
  {
    forall h, r | Admissible(u, h, r) ensures Admissible(t, h, r) { AdmissibleEarlier(t, u, h, r); }
  }

  /** What could be created after a step could be created before it. */
  lemma AdmissibleEarlier(t: TrackerState, u: TrackerState, h: int, r: int)
    requires Ages(t, u) && Admissible(u, h, r)
    ensures Admissible(t, h, r)
  {
  }

  lemma DeadStaysDead(t: TrackerState, u: TrackerState, h: int, r: int)
    requires Ages(t, u) && Dead(t, h, r)
    ensures Dead(u, h, r)
  {
  }

  // ---------- creating a height ----------

  /** The blocks of u are those of t, except that h may be new and empty and one old height may be gone. */
  ghost predicate SameBlocksBut(t: TrackerState, u: TrackerState, h: int, now: int)
  {
    && (forall x :: x in u.archive && x in t.archive ==> u.archive[x] == t.archive[x])
    && (forall x ::
      x in u.archive && x !in t.archive ==> x == h && u.archive[x] == NewBlock(h, now) && x > t.archiveEvictedThrough)
  }

  ghost predicate OnlyPruned(t: TrackerState, u: TrackerState)
  {
    && u.rounds.Keys <= t.rounds.Keys
    && (forall k :: k in u.rounds ==> u.rounds[k] == t.rounds[k])
    && (forall k :: k in t.rounds && k !in u.rounds ==> !u.Retained(k.height, k.round))
    && u.history == t.history && u.defaultValidators == t.defaultValidators
      && u.defaultTotalPower == t.defaultTotalPower
    && u.committedHeight == t.committedHeight
  }

  ghost predicate CatalogueStep(t: TrackerState, u: TrackerState)
  {
    && t.catalogueRevision <= u.catalogueRevision
    && (u.catalogueRevision == t.catalogueRevision <==>
          u.archive.Keys == t.archive.Keys && u.archiveEvictedThrough == t.archiveEvictedThrough
          && u.archiveLatestHeight == t.archiveLatestHeight && u.committedHeight == t.committedHeight)
  }

  ghost predicate HeightFacts(t: TrackerState, u: TrackerState, h: int, now: int)
  {
    && ArchiveOk(u) && Ages(t, u) && SameBlocksBut(t, u, h, now) && OnlyPruned(t, u) && CatalogueStep(t, u)
    && (h in t.archive ==> u == t)
    && (h !in u.archive ==> h <= u.archiveEvictedThrough || h <= 0 || h <= u.committedHeight)
  }

  lemma InsertedHeights(t: TrackerState, h: int, now: int)
    requires h !in t.archive
    ensures var g := InsertHeight(t, h, now);
      g.archive.Keys == t.archive.Keys + {h} && |g.archive| == |t.archive| + 1 && g.archive[h] == NewBlock(h, now)
      && (forall x :: x in t.archive ==> g.archive[x] == t.archive[x])
      && t.archiveLatestHeight <= g.archiveLatestHeight && h <= g.archiveLatestHeight
  {
    hide NewBlock;
    var g := InsertHeight(t, h, now);
    assert g.archive.Keys == t.archive.Keys + {h};
    assert |g.archive.Keys| == |t.archive.Keys| + 1;
  }

  lemma InsertedBlocks(t: TrackerState, h: int, now: int)
    requires ArchiveOk(t) && h > t.archiveEvictedThrough && h !in t.archive
    ensures var g := InsertHeight(t, h, now);
      forall x ::
        x in g.archive ==> t.archiveEvictedThrough < x <= g.archiveLatestHeight && BlockOk(x, g.archive[x])
  {
    InsertedHeights(t, h, now);
    NewBlockOk(h, now);
    hide BlockOk, InsertHeight;
    var g := InsertHeight(t, h, now);
    assert forall x :: x in g.archive ==> x in t.archive || x == h;
  }

  lemma InsertHeightFacts(t: TrackerState, h: int, now: int)
    requires ArchiveOk(t) && h > 0 && h > t.archiveEvictedThrough && h !in t.archive
    ensures var g := InsertHeight(t, h, now);
      && g.archive.Keys == t.archive.Keys + {h} && |g.archive| == |t.archive| + 1
      && (forall x ::
        x in g.archive ==> t.archiveEvictedThrough < x <= g.archiveLatestHeight && BlockOk(x, g.archive[x]))
      && SameBlocksBut(t, g, h, now) && Ages(t, g) && t.archiveLatestHeight <= g.archiveLatestHeight
  {
    InsertHeightAges(t, h, now);
    InsertedHeights(t, h, now);
    InsertedBlocks(t, h, now);
    hide BlockOk, Ages, InsertHeight, ArchiveOk;
  }

  lemma NewBlockOk(h: int, now: int)
    ensures BlockOk(h, NewBlock(h, now))
  {
  }

  lemma InsertHeightAges(t: TrackerState, h: int, now: int)
    requires h > 0 && h > t.archiveEvictedThrough && h !in t.archive
    ensures Ages(t, InsertHeight(t, h, now))
  {
  }

  lemma InsertHeightOk(t: TrackerState, g: TrackerState, h: int, now: int)
    requires ArchiveOk(t) && h > 0 && h > t.archiveEvictedThrough && h !in t.archive
    requires g == InsertHeight(t, h, now) && |g.archive| <= t.cfg.historySize
    ensures ArchiveOk(g) && OnlyPruned(t, g) && CatalogueStep(t, g)
  {
    hide BlockOk, Ages;
    InsertHeightFacts(t, h, now);
  }

  /** The heights left after evicting the oldest of g. */
  lemma EvictedArchive(g: TrackerState)
    requires g.archive.Keys != {}
    ensures var u := EvictOldestHeight(g); var oldest := SetMin(g.archive.Keys);
      && oldest in g.archive && u.archive.Keys == g.archive.Keys - {oldest} && |u.archive| == |g.archive| - 1
      && (forall x :: x in u.archive ==> x in g.archive && u.archive[x] == g.archive[x] && oldest < x)
      && u.archiveEvictedThrough == Max(g.archiveEvictedThrough, oldest)
  {
    var u := EvictOldestHeight(g);
    var oldest := SetMin(g.archive.Keys);
    assert oldest in g.archive;
    assert u.archive.Keys == g.archive.Keys - {oldest};
    assert |u.archive.Keys| == |g.archive.Keys| - 1;
    assert forall x :: x in u.archive ==> x in g.archive.Keys;
  }

  lemma EvictHeightKeepsOk(t: TrackerState, g: TrackerState, h: int, now: int)
    requires ArchiveOk(t) && h > 0 && h > t.archiveEvictedThrough && h !in t.archive
    requires g == InsertHeight(t, h, now) && |g.archive| > t.cfg.historySize
    ensures ArchiveOk(EvictOldestHeight(g))
  {
    hide BlockOk, Ages, SameBlocksBut;
    InsertHeightFacts(t, h, now);
    EvictedArchive(g);
  }

  lemma EvictHeightAges(t: TrackerState, g: TrackerState, h: int, now: int)
    requires ArchiveOk(t) && h > 0 && h > t.archiveEvictedThrough && h !in t.archive
    requires g == InsertHeight(t, h, now) && |g.archive| > t.cfg.historySize
    ensures Ages(t, EvictOldestHeight(g))
    ensures h !in EvictOldestHeight(g).archive ==> h <= EvictOldestHeight(g).archiveEvictedThrough
  {
    hide BlockOk;
    InsertHeightFacts(t, h, now);
    var u := EvictOldestHeight(g);
    var oldest := SetMin(g.archive.Keys);
    assert oldest in g.archive;
    assert u.archive.Keys == g.archive.Keys - {oldest};
    assert u.archiveEvictedThrough == oldest;
  }

  lemma EvictHeightChanges(t: TrackerState, g: TrackerState, h: int, now: int)
    requires ArchiveOk(t) && h > 0 && h > t.archiveEvictedThrough && h !in t.archive
    requires g == InsertHeight(t, h, now) && |g.archive| > t.cfg.historySize
    ensures var u := EvictOldestHeight(g); SameBlocksBut(t, u, h, now) && OnlyPruned(t, u) && CatalogueStep(t, u)
  {
    hide BlockOk, Ages;
    InsertHeightFacts(t, h, now);
    var u := EvictOldestHeight(g);
    var oldest := SetMin(g.archive.Keys);
    assert oldest in g.archive;
    assert u.archive.Keys == g.archive.Keys - {oldest};
    assert u.archiveEvictedThrough == oldest;
  }

  lemma UnchangedHeight(t: TrackerState, h: int, now: int)
    requires ArchiveOk(t)
    requires h <= 0 || h <= t.archiveEvictedThrough || h in t.archive || h <= t.committedHeight
    ensures HeightFacts(t, t, h, now)
  {
    hide BlockOk;
  }

  lemma CreateHeightFacts(t: TrackerState, h: int, now: int)
    requires ArchiveOk(t)
    ensures HeightFacts(t, CreateHeight(t, h, now), h, now)
  {
    if h <= 0 || h <= t.archiveEvictedThrough || h in t.archive {
      UnchangedHeight(t, h, now);
    } else {
      hide BlockOk, Ages;
      var grown := InsertHeight(t, h, now);
      InsertHeightFacts(t, h, now);
      if |grown.archive| > t.cfg.historySize {
        EvictHeightKeepsOk(t, grown, h, now);
        EvictHeightAges(t, grown, h, now);
        EvictHeightChanges(t, grown, h, now);
      } else {
        InsertHeightOk(t, grown, h, now);
      }
    }
  }

  // ---------- creating a round ----------

  lemma NewRoundOk(r: int, roster: Roster, now: int)
    requires r >= 0
    ensures RoundOk(r, NewRound(r, roster, now))
  {
    assert NewRound(r, roster, now).UnknownVoters() == {};
  }

  lemma InsertRoundFacts(b: ArchivedHeight, r: int, roster: Roster, now: int)
    requires CountersOk(b) && RoundsOk(b) && r >= 0 && r > b.evictedThrough && r !in b.rounds
    ensures var g := InsertRound(b, r, roster, now);
      g.rounds.Keys == b.rounds.Keys + {r} && |g.rounds| == |b.rounds| + 1 && CountersOk(g) && RoundsOk(g)
  {
    hide RoundOk;
    NewRoundOk(r, roster, now);
    var rounds := b.rounds[r := NewRound(r, roster, now)];
    assert rounds.Keys == b.rounds.Keys + {r};
    assert |rounds.Keys| == |b.rounds.Keys| + 1;
  }

  lemma EvictOldestRoundFacts(b: ArchivedHeight)
    requires CountersOk(b) && RoundsOk(b) && |b.rounds| == ROUND_LIMIT + 1
    ensures var c := EvictOldestRound(b);
      && c.evictedThrough in b.rounds && c.rounds.Keys == b.rounds.Keys - {c.evictedThrough}
      && BlockOk(b.height, c)
  {
    hide RoundOk;
    var oldest := SetMin(b.rounds.Keys);
    var e := b.rounds - {oldest};
    assert oldest in b.rounds;
    assert e.Keys == b.rounds.Keys - {oldest};
    assert |e.Keys| == |b.rounds.Keys| - 1;
    assert |e| == |b.rounds| - 1;
    forall x | x in e ensures oldest < x && RoundOk(x, e[x]) { assert x in b.rounds.Keys; }
  }

  /** The rounds of block h in u are those of t, except that r may be new and empty and one old round may be gone. */
  ghost predicate SameRoundsBut(t: TrackerState, u: TrackerState, h: int, r: int, now: int)
    requires h in t.archive && h in u.archive
  {
    && u.archive.Keys == t.archive.Keys
    && (forall x :: x in t.archive && x != h ==> u.archive[x] == t.archive[x])
    && (forall x ::
      x in u.archive[h].rounds && x in t.archive[h].rounds ==> u.archive[h].rounds[x] == t.archive[h].rounds[x])
    && (forall x ::
      x in u.archive[h].rounds && x !in t.archive[h].rounds
      ==> x == r && u.archive[h].rounds[x] == NewRound(r, t.defaultValidators, now))
  }

  /** Block c is block b after some steps: equal revisions exactly when the evidence is equal. */
  ghost predicate RevisionStep(b: ArchivedHeight, c: ArchivedHeight)
  {
    && b.revision <= c.revision
    && (b.revision == c.revision <==> b.(revision := 0) == c.(revision := 0))
  }

  ghost predicate RoundFacts(t: TrackerState, u: TrackerState, h: int, r: int, now: int)
    requires h in t.archive
  {
    && ArchiveOk(u) && Ages(t, u) && h in u.archive && SameRoundsBut(t, u, h, r, now) && OnlyPruned(t, u)
    && RevisionStep(t.archive[h], u.archive[h])
    && u.catalogueRevision == t.catalogueRevision && u.archiveEvictedThrough == t.archiveEvictedThrough
    && u.archiveLatestHeight == t.archiveLatestHeight
    && (t.Retained(h, r) ==> u == t)
    && (!u.Retained(h, r) ==> Dead(u, h, r))
  }

  /** Replacing one block by an older version of itself: the shape of every archiveRoundLocked that creates a round. */
  ghost predicate Grows(b: ArchivedHeight, c: ArchivedHeight, r: int, roster: Roster, now: int)
  {
    && BlockOk(b.height, c) && c.height == b.height && c.committed == b.committed && c.canonicalHash == b.canonicalHash
    && b.revision < c.revision && b.evictedThrough <= c.evictedThrough && b.roundsObserved < c.roundsObserved
    && (forall x ::
      x in c.rounds
      ==> (x in b.rounds && c.rounds[x] == b.rounds[x]) || (x == r && c.rounds[x] == NewRound(r, roster, now)))
    && (forall x :: x in b.rounds && x !in c.rounds ==> x <= c.evictedThrough)
    && (r !in c.rounds ==> r <= c.evictedThrough)
  }

  lemma InsertGrows(b: ArchivedHeight, r: int, roster: Roster, now: int)
    requires BlockOk(b.height, b) && r >= 0 && r > b.evictedThrough && r !in b.rounds
    ensures var g := InsertRound(b, r, roster, now);
      Grows(b, if |g.rounds| > ROUND_LIMIT then EvictOldestRound(g) else g, r, roster, now)
  {
    hide RoundOk, RoundsOk;
    var g := InsertRound(b, r, roster, now);
    InsertRoundFacts(b, r, roster, now);
    if |g.rounds| > ROUND_LIMIT {
      EvictOldestRoundFacts(g);
      EvictGrows(b, r, roster, now);
      hide BlockOk, Grows;
    } else {
      assert forall x :: x in g.rounds ==> x in b.rounds || x == r;
    }
  }

  lemma EvictGrows(b: ArchivedHeight, r: int, roster: Roster, now: int)
    requires CountersOk(b) && RoundsOk(b) && r > b.evictedThrough
    requires InsertRound(b, r, roster, now).rounds.Keys == b.rounds.Keys + {r}
    requires var c := EvictOldestRound(InsertRound(b, r, roster, now));
      && c.evictedThrough in InsertRound(b, r, roster, now).rounds
      && c.rounds.Keys == InsertRound(b, r, roster, now).rounds.Keys - {c.evictedThrough}
      && BlockOk(b.height, c)
    ensures Grows(b, EvictOldestRound(InsertRound(b, r, roster, now)), r, roster, now)
  {
    hide RoundOk, BlockOk, CountersOk;
    var g := InsertRound(b, r, roster, now);
    var c := EvictOldestRound(g);
    assert forall x :: x in c.rounds ==> x in g.rounds && c.rounds[x] == g.rounds[x];
    assert b.evictedThrough <= c.evictedThrough;
  }

  lemma ReplaceBlockOk(t: TrackerState, h: int, c: ArchivedHeight)
    requires ArchiveOk(t) && h in t.archive && BlockOk(h, c)
    ensures ArchiveOk(PruneDetector(t.(archive := t.archive[h := c])))
  {
    hide BlockOk;
    var archive := t.archive[h := c];
    assert archive.Keys == t.archive.Keys;
    assert |archive| == |archive.Keys| == |t.archive|;
    var u := PruneDetector(t.(archive := archive));
    assert forall x :: x in u.archive ==> x in t.archive;
  }

  lemma GrownAges(t: TrackerState, h: int, r: int, now: int, c: ArchivedHeight)
    requires ArchiveOk(t) && h in t.archive && Admissible(t, h, r)
    requires Grows(t.archive[h], c, r, t.defaultValidators, now)
    ensures Ages(t, PruneDetector(t.(archive := t.archive[h := c])))
  {
    hide BlockOk, ArchiveOk;
    var u := PruneDetector(t.(archive := t.archive[h := c]));
    assert u.archive.Keys == t.archive.Keys;
    assert u.archive[h] == c;
    assert forall x :: x in c.rounds && x !in t.archive[h].rounds ==> x == r;
  }

  lemma GrownChanges(t: TrackerState, h: int, r: int, now: int, c: ArchivedHeight)
    requires ArchiveOk(t) && h in t.archive && Admissible(t, h, r)
    requires Grows(t.archive[h], c, r, t.defaultValidators, now)
    ensures var u := PruneDetector(t.(archive := t.archive[h := c]));
      SameRoundsBut(t, u, h, r, now) && OnlyPruned(t, u) && RevisionStep(t.archive[h], c)
        && (r !in c.rounds ==> Dead(u, h, r))
  {
    hide BlockOk, ArchiveOk;
    var u := PruneDetector(t.(archive := t.archive[h := c]));
    assert u.archive.Keys == t.archive.Keys;
    assert u.archive[h] == c;
  }

  lemma NothingToPrune(u: TrackerState)
    requires forall k :: k in u.rounds ==> u.Retained(k.height, k.round)
    ensures PruneDetector(u) == u
  {
    assert PruneDetector(u).rounds == u.rounds;
  }

  lemma EnsureRoundIsPruned(t: TrackerState, h: int, r: int, now: int)
    requires ArchiveOk(t) && h in t.archive && Admissible(t, h, r)
    ensures var g := InsertRound(t.archive[h], r, t.defaultValidators, now);
      EnsureRound(t, h, r, now)
        == PruneDetector(t.(archive := t.archive[h := if |g.rounds| > ROUND_LIMIT then EvictOldestRound(g) else g]))
  {
    assert BlockOk(h, t.archive[h]);
    assert t.archive[h].height == h;
    hide BlockOk;
    var g := InsertRound(t.archive[h], r, t.defaultValidators, now);
    if |g.rounds| <= ROUND_LIMIT {
      NothingToPrune(t.(archive := t.archive[h := g]));
    }
  }

  lemma EnsureNothing(t: TrackerState, h: int, r: int, now: int)
    requires ArchiveOk(t) && h in t.archive && !Admissible(t, h, r)
    ensures EnsureRound(t, h, r, now) == t
  {
    assert BlockOk(h, t.archive[h]);
    assert t.archive[h].height == h;
    hide BlockOk;
  }

  lemma UnchangedRound(t: TrackerState, h: int, r: int, now: int)
    requires ArchiveOk(t) && h in t.archive && !Admissible(t, h, r)
    ensures RoundFacts(t, t, h, r, now)
  {
    hide BlockOk;
  }

  lemma EnsureRoundFacts(t: TrackerState, h: int, r: int, now: int)
    requires ArchiveOk(t) && h in t.archive
    ensures RoundFacts(t, EnsureRound(t, h, r, now), h, r, now)
  {
    assert BlockOk(h, t.archive[h]);
    assert t.archive[h].height == h;
    if Admissible(t, h, r) {
      var g := InsertRound(t.archive[h], r, t.defaultValidators, now);
      var c := if |g.rounds| > ROUND_LIMIT then EvictOldestRound(g) else g;
      InsertGrows(t.archive[h], r, t.defaultValidators, now);
      ReplaceBlockOk(t, h, c);
      GrownAges(t, h, r, now, c);
      GrownChanges(t, h, r, now, c);
      EnsureRoundIsPruned(t, h, r, now);
      hide Ages, ArchiveOk, Grows, EnsureRound;
    } else {
      EnsureNothing(t, h, r, now);
      UnchangedRound(t, h, r, now);
      hide RoundFacts, ArchiveOk, EnsureRound;
    }
  }

  // ---------- finding the round of an observation ----------

  /** Every round retained in u was retained in t and is the same, except that (h, r) may be new and empty. */
  ghost predicate QuietRounds(t: TrackerState, u: TrackerState, h: int, r: int, now: int)
  {
    forall x, y :: u.Retained(x, y) ==>
      || (t.Retained(x, y) && u.archive[x].rounds[y] == t.archive[x].rounds[y])
      || (x == h && y == r && !t.Retained(h, r) && u.archive[h].rounds[r] == NewRound(r, t.defaultValidators, now))
  }

  /** Blocks retained on both sides are equal, or the block of h has observed another round. */
  ghost predicate QuietBlocks(t: TrackerState, u: TrackerState, h: int)
  {
    forall x :: x in t.archive && x in u.archive ==>
      || u.archive[x] == t.archive[x]
      || (x == h && t.archive[x].revision < u.archive[x].revision
        && t.archive[x].roundsObserved < u.archive[x].roundsObserved)
  }

  ghost predicate LocateFacts(t: TrackerState, u: TrackerState, h: int, r: int, now: int)
  {
    && ArchiveOk(u) && Ages(t, u) && OnlyPruned(t, u) && CatalogueStep(t, u)
    && QuietRounds(t, u, h, r, now) && QuietBlocks(t, u, h)
    && (!u.Retained(h, r) ==> Dead(u, h, r))
    && (t.Retained(h, r) ==> u == t)
  }

  lemma EnsureHeightFacts(t: TrackerState, h: int, now: int)
    requires ArchiveOk(t)
    ensures HeightFacts(t, EnsureHeight(t, h, now), h, now)
  {
    if h <= 0 || h <= t.archiveEvictedThrough || h in t.archive || h <= t.committedHeight {
      UnchangedHeight(t, h, now);
    } else {
      CreateHeightFacts(t, h, now);
    }
  }

  lemma HeightIsQuiet(t: TrackerState, u: TrackerState, h: int, r: int, now: int)
    requires ArchiveOk(t) && HeightFacts(t, u, h, now)
    ensures QuietRounds(t, u, h, r, now) && QuietBlocks(t, u, h)
    ensures forall y :: u.Retained(h, y) ==> t.Retained(h, y)
  {
    hide ArchiveOk, Ages, OnlyPruned, CatalogueStep;
  }

  lemma RoundIsQuiet(u: TrackerState, w: TrackerState, h: int, r: int, now: int)
    requires ArchiveOk(u) && h in u.archive && RoundFacts(u, w, h, r, now)
    ensures QuietRounds(u, w, h, r, now)
  {
    hide ArchiveOk, Ages, OnlyPruned;
  }

  lemma EnsureRoundBlock(u: TrackerState, h: int, r: int, now: int)
    requires ArchiveOk(u) && h in u.archive
    ensures QuietBlocks(u, EnsureRound(u, h, r, now), h)
  {
    hide BlockOk, ArchiveOk;
  }

  lemma OnlyPrunedTransitive(t: TrackerState, u: TrackerState, w: TrackerState)
    requires OnlyPruned(t, u) && OnlyPruned(u, w) && Ages(u, w) && Ages(t, u) && ArchiveOk(t) && ArchiveOk(w)
    ensures OnlyPruned(t, w)
  {
    hide ArchiveOk;
    forall k | k in t.rounds && k !in w.rounds ensures !w.Retained(k.height, k.round) {
      if k !in u.rounds {
        assert t.Retained(k.height, k.round) by { DetectorIsArchived(t, k); }
        if w.Retained(k.height, k.round) {
          WasRetained(t, u, w, k.height, k.round);
          assert false;
        }
      }
    }
  }

  lemma DetectorIsArchived(t: TrackerState, k: Key)
    requires ArchiveOk(t) && k in t.rounds
    ensures t.Retained(k.height, k.round)
  {
  }

  /** No resurrection, one step: a round retained at both ends was retained in between. */
  lemma WasRetained(t: TrackerState, u: TrackerState, w: TrackerState, h: int, r: int)
    requires Ages(t, u) && Ages(u, w) && ArchiveOk(w)
    requires t.Retained(h, r) && w.Retained(h, r)
    ensures u.Retained(h, r)
  {
    assert h > w.archiveEvictedThrough && BlockOk(h, w.archive[h]);
    assert r > w.archive[h].evictedThrough;
  }

  lemma LocateIsQuiet(t: TrackerState, h: int, r: int, now: int)
    requires ArchiveOk(t)
    ensures LocateFacts(t, Locate(t, h, r, now), h, r, now)
  {
    var u := EnsureHeight(t, h, now);
    EnsureHeightFacts(t, h, now);
    HeightIsQuiet(t, u, h, r, now);
    if h in u.archive {
      var w := EnsureRound(u, h, r, now);
      EnsureRoundFacts(u, h, r, now);
      RoundIsQuiet(u, w, h, r, now);
      EnsureRoundBlock(u, h, r, now);
      AgesTransitive(t, u, w);
      OnlyPrunedTransitive(t, u, w);
      QuietRoundsCompose(t, u, w, h, r, now);
      QuietBlocksCompose(t, u, w, h, r, now);
      CatalogueCompose(t, u, w, h, r, now);
      hide EnsureHeight, EnsureRound, ArchiveOk, Ages, OnlyPruned, CatalogueStep, QuietRounds, QuietBlocks,
        SameRoundsBut, RevisionStep;
    } else {
      assert t.Retained(h, r) ==> u == t;
    }
  }

  lemma QuietRoundsCompose(t: TrackerState, u: TrackerState, w: TrackerState, h: int, r: int, now: int)
    requires QuietRounds(t, u, h, r, now) && QuietRounds(u, w, h, r, now)
    requires OnlyPruned(t, u) && (h in t.archive ==> u == t)
    ensures QuietRounds(t, w, h, r, now)
  {
  }

  lemma QuietBlocksCompose(t: TrackerState, u: TrackerState, w: TrackerState, h: int, r: int, now: int)
    requires QuietBlocks(t, u, h) && QuietBlocks(u, w, h)
    requires h in u.archive && RoundFacts(u, w, h, r, now)
    requires h in t.archive ==> u == t
    ensures QuietBlocks(t, w, h)
  {
    hide ArchiveOk, Ages, OnlyPruned;
  }

  lemma CatalogueCompose(t: TrackerState, u: TrackerState, w: TrackerState, h: int, r: int, now: int)
    requires CatalogueStep(t, u) && h in u.archive && RoundFacts(u, w, h, r, now)
    ensures CatalogueStep(t, w)
  {
    hide ArchiveOk, Ages;
  }
}
