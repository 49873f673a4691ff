/**
 The tracker as the source runs it: an object whose fields the locked methods update in loops. Every
 method is proved to take the tracker's value exactly where the step function of Archive or Tracker says.
 */
module TrackerMachine {
  import opened Common
  import opened TrackerTypes
  import opened Archive
  import opened Evidence
  import opened Detector
  import opened Tracker
  import Steps = Tracker
  import opened TrackerRuns
  import Incidents

  lemma LeastIsSetMin(s: set<int>, m: int)
    requires m in s && forall x :: x in s ==> m <= x
    ensures SetMin(s) == m
  {
  }

  /** The oldest key of a map, by the loop both evictions use. */
  method Oldest(keys: set<int>, start: int) returns (oldest: int)
    requires start in keys
    ensures oldest == SetMin(keys)
  {
    oldest := start;
    var rest := keys;
    ghost var done := {};
    while rest != {}
      invariant rest + done == keys && rest !! done
      invariant oldest in keys && forall x :: x in done ==> oldest <= x
      decreases |rest|
    {
      var h := Take(rest);
      Visit(rest, done, keys, h);
      if h < oldest { oldest := h; }
      rest, done := rest - {h}, done + {h};
    }
    assert done == keys;
    LeastIsSetMin(keys, oldest);
  }

  /** The late-roster loop over the members of one group. */
  method ReseedGroup(g: Group, m: Roster) returns (seeded: Group)
    ensures seeded == Group(SeqPower(g.validators, m), g.validators, SampleOf(g.validators, m))
  {
    seeded := Group(0, g.validators, []);
    for i := 0 to |g.validators|
      invariant seeded == Group(SeqPower(g.validators[..i], m), g.validators, SampleOf(g.validators[..i], m))
    {
      var a := g.validators[i];
      assert g.validators[..i + 1][..i] == g.validators[..i];
      seeded := seeded.(power := seeded.power + PowerIn(m, a));
      if MonikerIn(m, a) != "" && |seeded.monikers| < SAMPLE_LIMIT {
        seeded := seeded.(monikers := seeded.monikers + [MonikerIn(m, a)]);
      }
    }
    assert g.validators[..|g.validators|] == g.validators;
  }

  ghost predicate Reseeded(groups: map<string, Group>, seeded: map<string, Group>, m: Roster)
  {
    forall h :: h in seeded ==>
      h in groups
      && seeded[h]
        == Group(SeqPower(groups[h].validators, m), groups[h].validators, SampleOf(groups[h].validators, m))
  }

  lemma ReseedSum(seeded: map<string, Group>, h: string, g: Group)
    requires h !in seeded
    ensures Sum(seeded[h := g].Keys, GroupPowers(seeded[h := g])) == Sum(seeded.Keys, GroupPowers(seeded)) + g.power
  {
    var more := seeded[h := g];
    assert more.Keys == seeded.Keys + {h};
    SumInsert(seeded.Keys, GroupPowers(more), h);
    SumAgree(seeded.Keys, GroupPowers(more), GroupPowers(seeded));
  }

  lemma ReseedOne(groups: map<string, Group>, seeded: map<string, Group>, rest: set<string>, m: Roster, h: string,
        g: Group)
    requires Reseeded(groups, seeded, m) && rest + seeded.Keys == groups.Keys && rest !! seeded.Keys && h in rest
    requires g == Group(SeqPower(groups[h].validators, m), groups[h].validators, SampleOf(groups[h].validators, m))
    ensures Reseeded(groups, seeded[h := g], m) && (rest - {h}) + seeded[h := g].Keys == groups.Keys
      && (rest - {h}) !! seeded[h := g].Keys
    ensures |rest - {h}| < |rest|
  {
    hide Sum, SeqPower, SampleOf;
    assert seeded[h := g].Keys == seeded.Keys + {h};
    Visit(rest, seeded.Keys, groups.Keys, h);
  }

  lemma ReseedAll(rd: RoundData, seeded: map<string, Group>, m: Roster, total: int)
    requires rd.totalVotingPower == 0 && Reseeded(rd.groups, seeded, m) && seeded.Keys == rd.groups.Keys
    ensures Reweigh(rd, m, total)
      == rd.(validators := m, totalVotingPower := total, groups := seeded,
        totalVotedPower := Sum(seeded.Keys, GroupPowers(seeded)))
  {
    hide Sum, SeqPower, SampleOf;
    assert Reweigh(rd, m, total).groups == seeded;
  }

  /** The late-roster loop of SetValidators over the groups of one record, with the power it adds up. */
  method ReseedGroups(groups: map<string, Group>, m: Roster) returns (seeded: map<string, Group>, voted: int)
    ensures seeded.Keys == groups.Keys && Reseeded(groups, seeded, m) && voted == Sum(seeded.Keys, GroupPowers(seeded))
  {
    seeded, voted := map[], 0;
    NothingReseeded(groups, m);
    hide *;
    var rest := groups.Keys;
    while rest != {}
      invariant rest + seeded.Keys == groups.Keys && rest !! seeded.Keys
      invariant Reseeded(groups, seeded, m)
      invariant voted == Sum(seeded.Keys, GroupPowers(seeded))
      decreases |rest|
    {
      var h := Take(rest);
      var g := ReseedGroup(groups[h], m);
      ReseedOne(groups, seeded, rest, m, h, g);
      ReseedSum(seeded, h, g);
      seeded, voted := seeded[h := g], voted + g.power;
      rest := rest - {h};
    }
  }

  /** The body of that loop's caller: only a record without a roster is seeded. */
  method ReseedRecord(rd: RoundData, m: Roster, total: int) returns (seeded: RoundData)
    ensures seeded == Reweigh(rd, m, total)
  {
    if rd.totalVotingPower == 0 {
      var groups, voted := ReseedGroups(rd.groups, m);
      ReseedAll(rd, groups, m, total);
      hide *;
      seeded := rd.(validators := m, totalVotingPower := total, groups := groups, totalVotedPower := voted);
    } else {
      seeded := rd;
    }
  }

  lemma NothingReseeded(groups: map<string, Group>, m: Roster)
    ensures Reseeded(groups, map[], m) && Sum<string>({}, GroupPowers(map[])) == 0
  {
  }

  ghost predicate Backfilled(b: ArchivedHeight, c: ArchivedHeight, rest: set<int>, m: Roster)
  {
    && c == b.(rounds := c.rounds, revision := c.revision) && c.rounds.Keys == b.rounds.Keys
    && (forall r :: r in b.rounds ==>
      c.rounds[r] == if r !in rest && |b.rounds[r].roster| == 0 then b.rounds[r].(roster := m) else b.rounds[r])
    && c.revision == b.revision + if |m| > 0 then |Unfilled(b) - rest| else 0
  }

  lemma BackfillOne(b: ArchivedHeight, rest: set<int>, r: int)
    requires r in rest && r in b.rounds
    ensures |Unfilled(b) - (rest - {r})| == |Unfilled(b) - rest| + if r in Unfilled(b) then 1 else 0
  {
    if r in Unfilled(b) {
      assert Unfilled(b) - (rest - {r}) == (Unfilled(b) - rest) + {r};
    } else {
      assert Unfilled(b) - (rest - {r}) == Unfilled(b) - rest;
    }
  }

  lemma BackfilledNext(b: ArchivedHeight, c: ArchivedHeight, rest: set<int>, m: Roster, r: int)
    requires Backfilled(b, c, rest, m) && r in rest && r in b.rounds
    ensures |c.rounds[r].roster| == |b.rounds[r].roster|
    ensures Backfilled(b,
      if |c.rounds[r].roster| == 0
      then c.(rounds := c.rounds[r := c.rounds[r].(roster := m)], revision := c.revision + if |m| > 0 then 1 else 0)
        else c,
      rest - {r}, m)
  {
    BackfillOne(b, rest, r);
    var c2 := if |c.rounds[r].roster| == 0 then c.rounds[r := c.rounds[r].(roster := m)] else c.rounds;
    assert c2.Keys == b.rounds.Keys;
    hide Unfilled;
    assert r in Unfilled(b) <==> |b.rounds[r].roster| == 0 by { UnfilledMeans(b, r); }
  }

  lemma UnfilledMeans(b: ArchivedHeight, r: int)
    requires r in b.rounds
    ensures r in Unfilled(b) <==> |b.rounds[r].roster| == 0
  {
  }

  lemma BackfilledAll(b: ArchivedHeight, c: ArchivedHeight, m: Roster)
    requires Backfilled(b, c, {}, m)
    ensures c == Backfill(b, m)
  {
    assert Unfilled(b) - {} == Unfilled(b);
    var filled := Backfill(b, m);
    assert filled.rounds.Keys == b.rounds.Keys;
    assert forall r :: r in b.rounds ==> c.rounds[r] == filled.rounds[r];
    assert c.rounds == filled.rounds;
  }

  lemma NothingBackfilled(b: ArchivedHeight, m: Roster)
    ensures Backfilled(b, b, b.rounds.Keys, m)
  {
    assert Unfilled(b) - b.rounds.Keys == {};
  }

  /** The archive loop of SetValidators over the rounds of one block. */
  method BackfillBlock(b: ArchivedHeight, m: Roster) returns (filled: ArchivedHeight)
    ensures filled == Backfill(b, m)
  {
    filled := b;
    NothingBackfilled(b, m);
    var rest := b.rounds.Keys;
    while rest != {}
      invariant rest <= b.rounds.Keys
      invariant Backfilled(b, filled, rest, m)
      decreases |rest|
    {
      var r := Take(rest);
      BackfilledNext(b, filled, rest, m, r);
      hide Backfilled, Unfilled;
      if |filled.rounds[r].roster| == 0 {
        if |m| > 0 { filled := filled.(revision := filled.revision + 1); }
        filled := filled.(rounds := filled.rounds[r := filled.rounds[r].(roster := m)]);
      }
      rest := rest - {r};
    }
    BackfilledAll(b, filled, m);
  }

  /** The groups of one record as report rows, in the order a range over the map happens to visit them. */
  method ListRows(rd: RoundData) returns (rows: seq<GroupRow>)
    ensures Elements(rows) == Rows(rd) && Distinct(rows)
  {
    rows := [];
    var rest := rd.groups.Keys;
    ghost var done := {};
    assert Elements(rows) == RowsOn(rd, done);
    while rest != {}
      invariant rest + done == rd.groups.Keys && rest !! done
      invariant Elements(rows) == RowsOn(rd, done) && Distinct(rows)
      decreases |rest|
    {
      var h := Take(rest);
      Visit(rest, done, rd.groups.Keys, h);
      ListRow(rd, rows, done, h);
      rows := rows + [RowOf(rd, h)];
      rest, done := rest - {h}, done + {h};
    }
    assert done == rd.groups.Keys;
    assert RowsOn(rd, done) == Rows(rd);
  }

  ghost function RowsOn(rd: RoundData, on: set<string>): set<GroupRow>
    requires on <= rd.groups.Keys
  {
    set h | h in on :: RowOf(rd, h)
  }

  lemma ListRow(rd: RoundData, rows: seq<GroupRow>, done: set<string>, h: string)
    requires done <= rd.groups.Keys && h in rd.groups && h !in done && Elements(rows) == RowsOn(rd, done)
      && Distinct(rows)
    ensures Elements(rows + [RowOf(rd, h)]) == RowsOn(rd, done + {h}) && Distinct(rows + [RowOf(rd, h)])
  {
    AppendElement(rows, RowOf(rd, h));
    forall x | x in Elements(rows) ensures x.hash in done { }
  }

  /** The scan of report: skip the unnamed group, let the first named one lead, look for a heavy one behind it. */
  method Scan(rows: seq<GroupRow>, threshold: real) returns (divergent: bool)
    ensures divergent == ScanDivergent(rows, threshold)
  {
    divergent := false;
    var leaderFound := false;
    for i := 0 to |rows|
      invariant leaderFound <==> exists k :: 0 <= k < i && rows[k].hash != ""
      invariant forall k, j :: 0 <= k < j < i && rows[k].hash != "" ==> !HeavyRow(rows[j], threshold)
    {
      if rows[i].hash != "" {
        if !leaderFound {
          leaderFound := true;
        } else if rows[i].pct >= threshold && rows[i].power > 0 {
          return true;
        }
      }
    }
  }

  /** report */
  method Report(rd: RoundData, key: Key, threshold: real) returns (report: RoundReport)
    ensures report == ReportOf(rd, key, threshold)
  {
    var rows := ListRows(rd);
    RowsOrdered(rd);
    rows := SortSlice(RowLess, rows);
    var divergent := Scan(rows, threshold);
    report := RoundReport(key, rows, rd.totalVotingPower, rd.totalVotedPower, rd.resolved, rd.canonicalHash, divergent);
  }

  /** The records of t without those already visited whose round is gone. */
  ghost predicate PrunedBut(t: TrackerState, rest: set<Key>, rounds: map<Key, RoundData>)
  {
    && (forall k :: k in rounds <==> k in t.rounds && (k in rest || t.Retained(k.height, k.round)))
    && (forall k :: k in rounds ==> rounds[k] == t.rounds[k])
  }

  lemma PrunedAll(t: TrackerState, rounds: map<Key, RoundData>)
    requires PrunedBut(t, {}, rounds)
    ensures t.(rounds := rounds) == PruneDetector(t)
  {
    assert rounds == PruneDetector(t).rounds;
  }

  /** Among the visited voters, those the roster does not know. */
  lemma UnknownOne(done: set<string>, known: set<string>, a: string)
    requires a !in done
    ensures |(done + {a}) - known| == |done - known| + if a in known then 0 else 1
  {
    if a in known {
      assert (done + {a}) - known == done - known;
    } else {
      assert (done + {a}) - known == (done - known) + {a};
    }
  }

  /** The records of before with those of on seeded. */
  ghost predicate SeededOn(before: map<Key, RoundData>, on: set<Key>, rounds: map<Key, RoundData>, m: Roster,
        total: int)
  {
    && rounds.Keys == before.Keys
    && (forall k :: k in rounds ==> rounds[k] == if k in on then Reweigh(before[k], m, total) else before[k])
  }

  lemma SeededMore(before: map<Key, RoundData>, on: set<Key>, rounds: map<Key, RoundData>, m: Roster, total: int,
        k: Key)
    requires SeededOn(before, on, rounds, m, total) && k in before && k !in on
    ensures SeededOn(before, on + {k}, rounds[k := Reweigh(before[k], m, total)], m, total) && rounds[k] == before[k]
  {
    hide Reweigh;
  }

  /** The blocks of before with those of on backfilled. */
  ghost predicate FilledOn(before: map<int, ArchivedHeight>, on: set<int>, archive: map<int, ArchivedHeight>, m: Roster)
  {
    && archive.Keys == before.Keys
    && (forall h :: h in archive ==> archive[h] == if h in on then Backfill(before[h], m) else before[h])
  }

  lemma FilledMore(before: map<int, ArchivedHeight>, on: set<int>, archive: map<int, ArchivedHeight>, m: Roster, h: int)
    requires FilledOn(before, on, archive, m) && h in before && h !in on
    ensures FilledOn(before, on + {h}, archive[h := Backfill(before[h], m)], m) && archive[h] == before[h]
  {
    hide Backfill;
  }

  lemma FilledAll(before: map<int, ArchivedHeight>, archive: map<int, ArchivedHeight>, m: Roster)
    requires FilledOn(before, before.Keys, archive, m)
    ensures archive == map h | h in before :: Backfill(before[h], m)
  {
    hide Backfill;
    var filled := map h | h in before :: Backfill(before[h], m);
    assert filled.Keys == archive.Keys;
    assert forall h :: h in archive ==> archive[h] == filled[h];
  }

  class LiveTracker {
    const cfg: Config
    var rounds: map<Key, RoundData>
    var history: seq<RoundReport>
    var defaultValidators: Roster
    var defaultTotalPower: int
    var committedHeight: int
    var archive: map<int, ArchivedHeight>
    var archiveEvictedThrough: int
    var archiveLatestHeight: int
    var catalogueRevision: int

    ghost function State(): TrackerState
      reads this
    {
      TrackerState(cfg, rounds, history, defaultValidators, defaultTotalPower, committedHeight, archive,
        archiveEvictedThrough, archiveLatestHeight, catalogueRevision)
    }

    ghost predicate Valid()
      reads this
    {
      ArchiveOk(State())
    }

    /** New */
    constructor (config: Config)
      ensures State() == NewTracker(config) && Valid()
    {
      cfg := if config.historySize <= 0 then config.(historySize := 32) else config;
      rounds, history, defaultValidators, defaultTotalPower := map[], [], map[], 0;
      committedHeight, archive, archiveEvictedThrough, archiveLatestHeight, catalogueRevision := 0, map[], 0, 0, 0;
      new;
      NewTrackerOk(config);
    }

    /** pruneDetectorRoundsLocked */
    method PruneDetectorRoundsLocked()
      modifies this`rounds
      ensures State() == PruneDetector(old(State()))
    {
      ghost var t := State();
      var rest := rounds.Keys;
      while rest != {}
        invariant rest <= t.rounds.Keys
        invariant PrunedBut(t, rest, rounds)
        decreases |rest|
      {
        var key := Take(rest);
        if key.height !in archive || key.round !in archive[key.height].rounds { rounds := rounds - {key}; }
        rest := rest - {key};
      }
      PrunedAll(t, rounds);
    }

    /** createArchiveHeightLocked; found is false where the source returns nil. */
    method CreateArchiveHeightLocked(height: int, now: int) returns (found: bool)
      modifies this
      ensures State() == CreateHeight(old(State()), height, now)
      ensures found <==> height in archive
    {
      if height <= 0 || height <= archiveEvictedThrough { return height in archive; }
      if height in archive { return true; }
      archive := archive[height := NewBlock(height, now)];
      catalogueRevision := catalogueRevision + 1;
      if height > archiveLatestHeight { archiveLatestHeight := height; }
      assert State() == InsertHeight(old(State()), height, now);
      if |archive| > cfg.historySize {
        var oldest := Oldest(archive.Keys, height);
        archive := archive - {oldest};
        if oldest > archiveEvictedThrough { archiveEvictedThrough := oldest; }
        PruneDetectorRoundsLocked();
      }
      found := height in archive;
    }

    /** archiveHeightLocked */
    method ArchiveHeightLocked(height: int, now: int) returns (found: bool)
      modifies this
      ensures State() == EnsureHeight(old(State()), height, now)
      ensures found <==> height in archive
    {
      if height <= 0 || height <= archiveEvictedThrough { return height in archive; }
      if height in archive { return true; }
      if height <= committedHeight { return false; }
      found := CreateArchiveHeightLocked(height, now);
    }

    /** archiveRoundLocked */
    method ArchiveRoundLocked(height: int, round: int, now: int) returns (found: bool)
      requires height in archive
      modifies this
      ensures State() == EnsureRound(old(State()), height, round, now)
      ensures found <==> State().Retained(height, round)
    {
      var block := archive[height];
      if round < 0 || round <= block.evictedThrough || round in block.rounds { return round in block.rounds; }
      if block.committed || block.height <= committedHeight { return false; }
      block := block.(rounds := block.rounds[round := NewRound(round, defaultValidators, now)],
        revision := block.revision + 1);
      if block.roundsObserved == 0 || round < block.firstRound { block := block.(firstRound := round); }
      if archive[height].roundsObserved == 0 || round > block.lastRound { block := block.(lastRound := round); }
      block := block.(roundsObserved := block.roundsObserved + 1, lastSeen := now);
      assert block == InsertRound(archive[height], round, defaultValidators, now);
      if |block.rounds| > ROUND_LIMIT {
        var oldest := Oldest(block.rounds.Keys, round);
        archive := archive[height := block.(rounds := block.rounds - {oldest}, evictedThrough := oldest,
          roundsEvicted := block.roundsEvicted + 1)];
        PruneDetectorRoundsLocked();
      } else {
        archive := archive[height := block];
      }
      found := round in archive[height].rounds;
    }

    /** The common opening of ObserveRound and observeVoteLocked: find or create the round. */
    method LocateLocked(height: int, round: int, now: int) returns (found: bool)
      modifies this
      ensures State() == Locate(old(State()), height, round, now)
      ensures found <==> State().Retained(height, round)
    {
      found := ArchiveHeightLocked(height, now);
      if found { found := ArchiveRoundLocked(height, round, now); }
    }

    method ObserveRound(height: int, round: int, proposer: string, now: int)
      requires Valid()
      modifies this
      ensures State() == Archive.ObserveRound(old(State()), height, round, proposer, now) && Valid()
    {
      ObserveRoundEvolves(State(), height, round, proposer, now);
      EvolvesOk(State(), Archive.ObserveRound(State(), height, round, proposer, now));
      hide Locate, ArchiveOk, Evolves;
      if height <= 0 || round < 0 || round > MAX_ROUND || |proposer| > IDENTITY_LIMIT { return; }
      var found := LocateLocked(height, round, now);
      if !found { return; }
      ReplaceSameBlock(State(), height);
      var block := ProposeLocked(archive[height], round, proposer, now);
      hide Propose;
      archive := archive[height := block];
    }

    /** The proposer part of ObserveRound on one block. */
    method ProposeLocked(block: ArchivedHeight, round: int, proposer: string, now: int) returns (next: ArchivedHeight)
      requires round in block.rounds
      ensures next == Propose(block, round, proposer, now)
    {
      next := block;
      var rd := block.rounds[round];
      if proposer != "" && rd.proposer != proposer {
        rd := rd.(proposer := proposer, lastSeen := now);
        next := block.(rounds := block.rounds[round := rd], lastSeen := now, revision := block.revision + 1);
      }
    }

    /** How many voters of a round are outside its roster. */
    method CountUnknown(rd: ArchivedRound) returns (unknown: int)
      ensures unknown == |rd.UnknownVoters()|
    {
      unknown := 0;
      var rest := rd.votes.Keys;
      ghost var done, known, all := {}, rd.roster.Keys, rest;
      NobodyUnknown(done, known);
      while rest != {}
        invariant rest + done == all && rest !! done
        invariant unknown == |done - known|
        decreases |rest|
      {
        var a := Take(rest);
        Visit(rest, done, all, a);
        UnknownOne(done, known, a);
        if a !in rd.roster { unknown := unknown + 1; }
        rest, done := rest - {a}, done + {a};
      }
      UnknownAre(rd, done);
    }

    /** The search for a hash among those already held. */
    method Holds(hashes: seq<HashSeen>, hash: string) returns (held: bool)
      ensures held <==> hash in PhaseVote(hashes, false, false).Hashes()
    {
      for i := 0 to |hashes|
        invariant forall j :: 0 <= j < i ==> hashes[j].hash != hash
      {
        if hashes[i].hash == hash { return true; }
      }
      held := false;
    }

    /** The evidence part of observeVoteLocked on one round; bumped says whether the block's revision moves. */
    method RecordLocked(rd: ArchivedRound, v: VoteEvent, now: int)
          returns (next: ArchivedRound, bumped: bool, appended: bool)
      ensures next == RecordInRound(rd, v, now) && bumped == RecordBumps(rd, v) && appended == Appends(rd, v)
    {
      next, bumped, appended := rd, false, false;
      if v.addr !in rd.votes && v.addr !in rd.roster {
        var unknown := CountUnknown(rd);
        if unknown >= UNKNOWN_LIMIT {
          bumped := !rd.truncated;
          next := rd.(truncated := true);
          return;
        }
      }
      var vote := if rd.Vote(v.addr, v.kind).Some? then rd.Vote(v.addr, v.kind).value else NO_HASHES;
      var held := Holds(vote.hashes, v.hash);
      assert held <==> v.hash in vote.Hashes();
      if held { return; }
      if |vote.hashes| >= HASH_LIMIT {
        bumped := !vote.truncated || !vote.conflicting || !rd.truncated;
        next := rd.(votes := WriteBallot(rd, v, vote.(truncated := true, conflicting := true)), truncated := true);
        return;
      }
      vote := vote.(hashes := vote.hashes + [HashSeen(v.hash, now, v.signedAt)]);
      vote := vote.(conflicting := |vote.hashes| > 1);
      next, bumped, appended := rd.(votes := WriteBallot(rd, v, vote), lastSeen := now), true, true;
    }

    method ObserveVoteLocked(v: VoteEvent, now: int)
      requires Valid()
      modifies this
      ensures State() == ObserveVote(old(State()), v, now) && Valid()
    {
      ObserveVoteEvolves(State(), v, now);
      EvolvesOk(State(), ObserveVote(State(), v, now));
      hide Locate, ArchiveOk, Evolves, RecordVote;
      if v.height <= 0 || v.round < 0 || v.round > MAX_ROUND || v.addr == "" || |v.addr| > IDENTITY_LIMIT
        || |v.hash| > IDENTITY_LIMIT || v.kind == OtherType {
        return;
      }
      var found := LocateLocked(v.height, v.round, now);
      if found { RecordAt(v, now); }
    }

    /** What observeVoteLocked does once the round is found. */
    method RecordAt(v: VoteEvent, now: int)
      requires State().Retained(v.height, v.round) && ValidVote(v)
      modifies this`archive
      ensures archive == old(archive)[v.height := RecordVote(old(archive[v.height]), v, now)]
    {
      hide RecordInRound, RecordBumps, Appends;
      var block := archive[v.height];
      var rd, bumped, appended := RecordLocked(block.rounds[v.round], v, now);
      block := block.(rounds := block.rounds[v.round := rd]);
      if bumped { block := block.(revision := block.revision + 1); }
      if appended { block := block.(lastSeen := now); }
      archive := archive[v.height := block];
    }

    /** archiveCommitLocked */
    method ArchiveCommitLocked(height: int, hash: string, now: int)
      modifies this
      ensures State() == ArchiveCommit(old(State()), height, hash, now)
    {
      hide CreateHeight;
      if |hash| > IDENTITY_LIMIT { return; }
      var found := CreateArchiveHeightLocked(height, now);
      if !found { return; }
      var block := archive[height];
      ReplaceSameBlock(State(), height);
      if !block.committed || (block.canonicalHash == "" && hash != "") {
        archive := archive[height := block.(committed := true, canonicalHash := hash, lastSeen := now,
          revision := block.revision + 1)];
      }
    }

    /** The late-roster loop of SetValidators over the open records. */
    method ReseedRecords(m: Roster, total: int)
      modifies this`rounds
      ensures rounds == map k | k in old(rounds) :: Reweigh(old(rounds[k]), m, total)
    {
      hide Reweigh;
      var rest := rounds.Keys;
      ghost var done, before := {}, rounds;
      while rest != {}
        invariant rest + done == before.Keys && rest !! done
        invariant SeededOn(before, done, rounds, m, total)
        decreases |rest|
      {
        var key := Take(rest);
        Visit(rest, done, before.Keys, key);
        SeededMore(before, done, rounds, m, total, key);
        var seeded := ReseedRecord(rounds[key], m, total);
        rounds := rounds[key := seeded];
        rest, done := rest - {key}, done + {key};
      }
      assert done == before.Keys;
    }

    /** The archive loop of SetValidators over the retained heights. */
    method BackfillArchive(m: Roster)
      modifies this`archive
      ensures archive == map h | h in old(archive) :: Backfill(old(archive[h]), m)
    {
      hide Backfill;
      var rest := archive.Keys;
      ghost var done, before := {}, archive;
      while rest != {}
        invariant rest + done == before.Keys && rest !! done
        invariant FilledOn(before, done, archive, m)
        decreases |rest|
      {
        var h := Take(rest);
        Visit(rest, done, before.Keys, h);
        FilledMore(before, done, archive, m, h);
        var filled := BackfillBlock(archive[h], m);
        archive := archive[h := filled];
        rest, done := rest - {h}, done + {h};
      }
      assert done == before.Keys;
      FilledAll(before, archive, m);
    }

    /** The first loop of SetValidators: the map of validators and their total power. */
    method AddUpRoster(vs: Listing) returns (m: Roster, total: int)
      ensures m == RosterOf(vs) && total == TotalOf(vs)
    {
      m, total := map[], 0;
      for i := 0 to |vs|
        invariant m == RosterOf(vs[..i]) && total == TotalOf(vs[..i])
      {
        assert vs[..i + 1][..i] == vs[..i];
        m, total := m[vs[i].0 := vs[i].1], total + vs[i].1.power;
      }
      assert vs[..|vs|] == vs;
    }

    method SetValidators(vs: Listing)
      requires Valid()
      modifies this
      ensures State() == Steps.SetValidators(old(State()), vs) && Valid()
    {
      SetValidatorsOk(State(), vs);
      hide ArchiveOk, Reweigh, Backfill;
      var m, total := AddUpRoster(vs);
      hide RosterOf, TotalOf;
      defaultValidators, defaultTotalPower := m, total;
      ReseedRecords(m, total);
      BackfillArchive(m);
    }

    /** report is None where the source returns RoundReport{}. */
    method IngestVote(v: VoteEvent, now: int) returns (report: Option<RoundReport>, trigger: bool)
      requires Valid()
      modifies this
      ensures Ingested(State(), report, trigger) == Steps.IngestVote(old(State()), v, now) && Valid()
    {
      IngestVoteEvolves(State(), v, now);
      EvolvesOk(State(), Steps.IngestVote(State(), v, now).tracker);
      hide ArchiveOk, Evolves, ObserveVote, ReportOf, AddVote, NewRoundData, Fires;
      report, trigger := None, false;
      ObserveVoteLocked(v, now);
      if v.height !in archive || v.round !in archive[v.height].rounds
        || archive[v.height].rounds[v.round].Vote(v.addr, v.kind).None? {
        return;
      }
      if v.height <= committedHeight { return; }
      assert HasVote(State(), v);
      report, trigger := IngestAdmitted(v);
    }

    /** IngestVote once the archive has admitted the vote: count it and decide on the trigger. */
    method IngestAdmitted(v: VoteEvent) returns (report: Option<RoundReport>, trigger: bool)
      modifies this`rounds
      ensures Ingested(State(), report, trigger) == CountVote(old(State()), v)
    {
      hide ReportOf, AddVote, NewRoundData;
      trigger := false;
      var key := Key(v.height, v.round, v.kind);
      var rd := if key in rounds then rounds[key] else NewRoundData(defaultValidators, defaultTotalPower);
      if v.addr in rd.seen {
        rounds := rounds[key := rd];
        var seen := Report(rd, key, cfg.thresholdPct);
        return Some(seen), false;
      }
      rd := Count(rd, v.addr, v.hash);
      var counted := Report(rd, key, cfg.thresholdPct);
      report := Some(counted);
      if v.kind == Precommit || cfg.includePrevotes {
        if !rd.advanced
          && ((v.kind == Precommit && rd.totalVotingPower > 0 && rd.totalVotedPower > rd.totalVotingPower * 2 / 3)
                            || (cfg.includePrevotes && rd.totalVotedPower == rd.totalVotingPower
                              && rd.totalVotingPower > 0)) {
          if counted.isDivergent && !rd.detected { trigger := true; }
        }
      }
      assert trigger == Fires(cfg, v.kind, rd, counted.isDivergent);
      hide Fires;
      if trigger { rd := rd.(detected := true); }
      rounds := rounds[key := rd];
    }

    /** The counting part of IngestVote. */
    method Count(rd: RoundData, a: string, hash: string) returns (next: RoundData)
      ensures next == AddVote(rd, a, hash)
    {
      next := rd.(seen := rd.seen + {a});
      var g := if hash in rd.groups then rd.groups[hash] else Group(0, [], []);
      var power, moniker := 0, "";
      if a in rd.validators { power, moniker := rd.validators[a].power, rd.validators[a].moniker; }
      g := g.(power := g.power + power, validators := g.validators + [a]);
      if moniker != "" && |g.monikers| < SAMPLE_LIMIT { g := g.(monikers := g.monikers + [moniker]); }
      next := next.(groups := next.groups[hash := g], totalVotedPower := next.totalVotedPower + power);
    }

    method MarkPhase(key: Key)
      modifies this`rounds
      ensures rounds == MarkOne(old(rounds), key)
    {
      if key in rounds { rounds := rounds[key := rounds[key].(advanced := true)]; }
    }

    method MarkRoundAdvanced(height: int, round: int)
      requires Valid()
      modifies this
      ensures State() == Steps.MarkRoundAdvanced(old(State()), height, round) && Valid()
    {
      MarkRoundAdvancedEvolves(State(), height, round);
      EvolvesOk(State(), Steps.MarkRoundAdvanced(State(), height, round));
      ghost var t := State();
      MarkedPhases(t, height, round);
      hide ArchiveOk, Evolves, Steps.MarkRoundAdvanced, MarkOne;
      var prevote, precommit := Key(height, round, Prevote), Key(height, round, Precommit);
      MarkPhase(prevote);
      MarkPhase(precommit);
    }

    /** The first loop of ResolveCommit: close what is open at the height, and silently below it. */
    method CloseRounds(height: int, hash: string) returns (resolved: seq<RoundReport>)
      modifies this`rounds
      ensures rounds == map k | k in old(rounds) :: Close(old(rounds[k]), k, height, hash)
      ensures Elements(resolved) == ClosingReports(old(State()), height, hash) && Distinct(resolved)
    {
      hide ReportOf, Elements, Distinct, Close, ReportsOn, ClosingReports;
      ghost var t := State();
      resolved := [];
      NoReports();
      NoReportsOn(t, height, hash);
      var rest := rounds.Keys;
      ghost var done := {};
      while rest != {}
        invariant rest + done == t.rounds.Keys && rest !! done
        invariant ClosedOn(t, done, rounds, height, hash)
        invariant Elements(resolved) == ReportsOn(t, done, height, hash) && Distinct(resolved)
        decreases |rest|
      {
        var key := Take(rest);
        Visit(rest, done, t.rounds.Keys, key);
        assert rounds[key] == t.rounds[key];
        ReportOnMore(t, done, height, hash, key, resolved);
        ClosedMore(t, done, rounds, height, hash, key);
        var closed, report := CloseOne(key, rounds[key], height, hash);
        if report.Some? { resolved := resolved + [report.value]; }
        rounds := rounds[key := closed];
        rest, done := rest - {key}, done + {key};
      }
      assert done == t.rounds.Keys;
      assert rounds == map k | k in t.rounds :: Close(t.rounds[k], k, height, hash);
      ReportsOnAll(t, height, hash);
    }

    /** One record of that loop; a report for each record of the height that was open. */
    method CloseOne(key: Key, rd: RoundData, height: int, hash: string)
          returns (closed: RoundData, report: Option<RoundReport>)
      ensures closed == Close(rd, key, height, hash)
      ensures report
        == if key.height == height && !rd.resolved then Some(ReportOf(closed, key, cfg.thresholdPct)) else None
    {
      closed, report := rd, None;
      if key.height == height && !rd.resolved {
        closed := rd.(committed := true, resolved := true, canonicalHash := hash);
        var made := Report(closed, key, cfg.thresholdPct);
        report := Some(made);
      } else if key.height < height && !rd.resolved {
        closed := rd.(committed := true, resolved := true);
      }
    }

    /** The last loop of ResolveCommit: forget records below the cutoff. */
    method DropOld(cutoff: int)
      modifies this`rounds
      ensures rounds == map k | k in old(rounds) && k.height >= cutoff :: old(rounds[k])
    {
      var rest := rounds.Keys;
      ghost var done := {};
      while rest != {}
        invariant rest + done == old(rounds).Keys && rest !! done
        invariant rounds.Keys <= old(rounds).Keys
        invariant forall k :: k in old(rounds) ==> (k in rounds <==> k in rest || k.height >= cutoff)
        invariant forall k :: k in rounds ==> rounds[k] == old(rounds[k])
        decreases |rest|
      {
        var key := Take(rest);
        Visit(rest, done, old(rounds).Keys, key);
        if key.height < cutoff { rounds := rounds - {key}; }
        rest, done := rest - {key}, done + {key};
      }
    }

    /** ResolveCommit up to the committed height. */
    method CommitLocked(height: int, hash: string, now: int)
      modifies this
      ensures State() == CommitArchive(old(State()), height, hash, now)
    {
      hide ArchiveCommit;
      ArchiveCommitLocked(height, hash, now);
      if height > committedHeight {
        committedHeight := height;
        catalogueRevision := catalogueRevision + 1;
      }
    }

    /** ResolveCommit from the committed height on. */
    method CloseLocked(height: int, hash: string) returns (resolved: seq<RoundReport>)
      requires 1 <= cfg.historySize
      modifies this`rounds, this`history
      ensures State() == CloseAll(old(State()), height, hash)
      ensures resolved == ResolvedReports(old(State()), height, hash)
    {
      hide Close, Elements, Distinct, Ascending, Orders, ClosingReports, ReportLess;
      ghost var u := State();
      resolved := CloseRounds(height, hash);
      ClosingOrdered(u, height, hash);
      resolved := SortSlice(ReportLess, resolved);
      assert resolved == ResolvedReports(u, height, hash);
      hide ResolvedReports;
      TrimHistory(resolved);
      hide LastOf;
      ghost var closed := rounds;
      DropOld(height - cfg.historySize);
      ClosedAndKept(u, closed, rounds, height, hash);
    }

    /** The history grows by the resolved reports and keeps its newest. */
    method TrimHistory(resolved: seq<RoundReport>)
      requires 1 <= cfg.historySize
      modifies this`history
      ensures history == LastOf(old(history) + resolved, cfg.historySize * 4)
    {
      history := history + resolved;
      if |history| > cfg.historySize * 4 { history := history[|history| - cfg.historySize * 4..]; }
    }

    method ResolveCommit(height: int, hash: string, now: int) returns (resolved: seq<RoundReport>)
      requires Valid()
      modifies this
      ensures State() == Steps.ResolveCommit(old(State()), height, hash, now) && Valid()
      ensures resolved == ResolvedReports(CommitArchive(old(State()), height, hash, now), height, hash)
    {
      assert 1 <= cfg.historySize;
      ResolveCommitEvolves(State(), height, hash, now);
      EvolvesOk(State(), Steps.ResolveCommit(State(), height, hash, now));
      hide ArchiveOk, Evolves, CommitArchive, CloseAll, ResolvedReports;
      CommitLocked(height, hash, now);
      resolved := CloseLocked(height, hash);
    }

    /** CurrentReport: the live records in order, and the last divergent ones of the history. */
    method CurrentReport() returns (live: seq<RoundReport>, divergent: seq<RoundReport>)
      ensures Elements(live) == LiveReports(State()) && Ascending(LiveLess, live)
      ensures divergent == LastOf(DivergentOf(history), cfg.historySize)
    {
      live := ListLive();
      LiveOrdered(State());
      hide Elements, Distinct, Orders, LiveReports;
      live := SortSlice(LiveLess, live);
      divergent := [];
      for i := 0 to |history|
        invariant divergent == DivergentOf(history[..i])
      {
        assert history[..i + 1][..i] == history[..i];
        if history[i].isDivergent { divergent := divergent + [history[i]]; }
      }
      assert history[..|history|] == history;
      divergent := LastOf(divergent, cfg.historySize);
    }

    method ListLive() returns (live: seq<RoundReport>)
      ensures Elements(live) == LiveReports(State()) && Distinct(live)
    {
      hide ReportOf, Elements, Distinct;
      live := [];
      NoReports();
      var rest := rounds.Keys;
      ghost var done := {};
      while rest != {}
        invariant rest + done == rounds.Keys && rest !! done
        invariant Elements(live) == LiveOn(State(), done) && Distinct(live)
        decreases |rest|
      {
        var key := Take(rest);
        Visit(rest, done, rounds.Keys, key);
        LiveOnMore(State(), done, key, live);
        if !rounds[key].resolved {
          var report := Report(rounds[key], key, cfg.thresholdPct);
          live := live + [report];
        }
        rest, done := rest - {key}, done + {key};
      }
      assert done == rounds.Keys;
    }
  }

  function MarkOne(rounds: map<Key, RoundData>, key: Key): map<Key, RoundData>
  {
    if key in rounds then rounds[key := rounds[key].(advanced := true)] else rounds
  }

  lemma MarkedPhases(t: TrackerState, h: int, r: int)
    ensures Steps.MarkRoundAdvanced(t, h, r)
      == t.(rounds := MarkOne(MarkOne(t.rounds, Key(h, r, Prevote)), Key(h, r, Precommit)))
  {
    var marked := MarkOne(MarkOne(t.rounds, Key(h, r, Prevote)), Key(h, r, Precommit));
    assert marked.Keys == t.rounds.Keys;
    assert Steps.MarkRoundAdvanced(t, h, r).rounds == marked;
  }

  lemma NoReports()
    ensures Elements<RoundReport>([]) == {} && Distinct<RoundReport>([])
  {
  }

  lemma ClosedAndKept(u: TrackerState, closed: map<Key, RoundData>, kept: map<Key, RoundData>, h: int, hash: string)
    requires closed == map k | k in u.rounds :: Close(u.rounds[k], k, h, hash)
    requires kept == map k | k in closed && k.height >= h - u.cfg.historySize :: closed[k]
    ensures kept == map k | k in u.rounds && k.height >= h - u.cfg.historySize :: Close(u.rounds[k], k, h, hash)
  {
    hide Close;
  }

  lemma NoReportsOn(t: TrackerState, h: int, hash: string)
    ensures ReportsOn(t, {}, h, hash) == {}
  {
    hide ReportOf;
  }

  lemma NobodyUnknown(none: set<string>, known: set<string>)
    requires none == {}
    ensures |none - known| == 0
  {
    assert none - known == {};
  }

  lemma UnknownAre(rd: ArchivedRound, done: set<string>)
    requires {} + done == rd.votes.Keys
    ensures done - rd.roster.Keys == rd.UnknownVoters()
  {
    assert done == rd.votes.Keys;
  }

  /** The records of t with those of on closed. */
  ghost predicate ClosedOn(t: TrackerState, on: set<Key>, rounds: map<Key, RoundData>, h: int, hash: string)
  {
    && rounds.Keys == t.rounds.Keys
    && (forall k :: k in rounds ==> rounds[k] == if k in on then Close(t.rounds[k], k, h, hash) else t.rounds[k])
  }

  lemma ClosedMore(t: TrackerState, on: set<Key>, rounds: map<Key, RoundData>, h: int, hash: string, k: Key)
    requires ClosedOn(t, on, rounds, h, hash) && k in t.rounds && k !in on
    ensures ClosedOn(t, on + {k}, rounds[k := Close(t.rounds[k], k, h, hash)], h, hash)
  {
    hide Close;
  }

  ghost function ReportsOn(t: TrackerState, on: set<Key>, h: int, hash: string): set<RoundReport>
  {
    set k | k in on && k in Closing(t, h) :: ReportOf(Close(t.rounds[k], k, h, hash), k, t.cfg.thresholdPct)
  }

  lemma ReportsOnAll(t: TrackerState, h: int, hash: string)
    ensures ReportsOn(t, t.rounds.Keys, h, hash) == ClosingReports(t, h, hash)
  {
    hide ReportOf, Close;
  }

  lemma ReportOnMore(t: TrackerState, done: set<Key>, h: int, hash: string, k: Key, resolved: seq<RoundReport>)
    requires k in t.rounds && k !in done && Elements(resolved) == ReportsOn(t, done, h, hash) && Distinct(resolved)
    ensures var report := ReportOf(Close(t.rounds[k], k, h, hash), k, t.cfg.thresholdPct);
      if k in Closing(t, h) then Elements(resolved + [report]) == ReportsOn(t, done + {k}, h, hash)
        && Distinct(resolved + [report])
      else ReportsOn(t, done + {k}, h, hash) == ReportsOn(t, done, h, hash)
  {
    hide ReportOf, Close, Distinct, Elements;
    if k in Closing(t, h) {
      var report := ReportOf(Close(t.rounds[k], k, h, hash), k, t.cfg.thresholdPct);
      AppendElement(resolved, report);
      forall j | j in t.rounds ensures ReportOf(Close(t.rounds[j], j, h, hash), j, t.cfg.thresholdPct).key == j {
        ReportKey(Close(t.rounds[j], j, h, hash), j, t.cfg.thresholdPct);
      }
      assert ReportsOn(t, done + {k}, h, hash) == ReportsOn(t, done, h, hash) + {report};
    }
  }

  // ---------- CurrentReport ----------

  function LiveLess(a: RoundReport, b: RoundReport): bool
  {
    if a.key.height != b.key.height then a.key.height < b.key.height
    else if a.key.round != b.key.round then a.key.round < b.key.round
    else Rank(a.key.kind) < Rank(b.key.kind)
  }

  ghost function LiveOn(t: TrackerState, on: set<Key>): set<RoundReport>
  {
    set k | k in on && k in t.rounds && !t.rounds[k].resolved :: ReportOf(t.rounds[k], k, t.cfg.thresholdPct)
  }

  ghost function LiveReports(t: TrackerState): set<RoundReport> { LiveOn(t, t.rounds.Keys) }

  lemma LiveOrdered(t: TrackerState)
    ensures Orders(LiveLess, LiveReports(t))
  {
    hide ReportOf;
    forall k | k in t.rounds ensures ReportOf(t.rounds[k], k, t.cfg.thresholdPct).key == k {
      ReportKey(t.rounds[k], k, t.cfg.thresholdPct);
    }
  }

  lemma LiveOnMore(t: TrackerState, done: set<Key>, k: Key, live: seq<RoundReport>)
    requires k in t.rounds && k !in done && Elements(live) == LiveOn(t, done) && Distinct(live)
    ensures var report := ReportOf(t.rounds[k], k, t.cfg.thresholdPct);
      if !t.rounds[k].resolved then Elements(live + [report]) == LiveOn(t, done + {k}) && Distinct(live + [report])
      else LiveOn(t, done + {k}) == LiveOn(t, done)
  {
    hide ReportOf, Distinct, Elements;
    if !t.rounds[k].resolved {
      var report := ReportOf(t.rounds[k], k, t.cfg.thresholdPct);
      AppendElement(live, report);
      forall j | j in t.rounds ensures ReportOf(t.rounds[j], j, t.cfg.thresholdPct).key == j {
        ReportKey(t.rounds[j], j, t.cfg.thresholdPct);
      }
      assert LiveOn(t, done + {k}) == LiveOn(t, done) + {report};
    }
  }

  function DivergentOf(history: seq<RoundReport>): seq<RoundReport>
  {
    if history == [] then [] else
      var last := history[|history| - 1];
      DivergentOf(history[..|history| - 1]) + if last.isDivergent then [last] else []
  }

  // ---------- live records over runs ----------

  /** A record that is still open is above the committed height. */
  ghost predicate OpenIsLive(t: TrackerState)
  {
    forall k :: k in t.rounds && k.height <= t.committedHeight ==> t.rounds[k].resolved
  }

  lemma StepKeepsOpenLive(t: TrackerState, e: Timed)
    requires ArchiveOk(t) && OpenIsLive(t)
    ensures OpenIsLive(Step(t, e))
  {
    hide ArchiveOk, ObserveVote, ArchiveCommit, ReportOf, Fires, ResolvedReports, OnlyPruned, Backfill, RosterOf,
      TotalOf, Archive.ObserveRound;
    match e.op
    case OpSetValidators(vs) =>
    case OpObserveRound(h, r, proposer) =>
      ObserveRoundPrunes(t, h, r, proposer, e.now);
      PrunedOpen(t, Archive.ObserveRound(t, h, r, proposer, e.now));
    case OpObserveVote(v) =>
      ObserveVotePrunes(t, v, e.now);
      PrunedOpen(t, ObserveVote(t, v, e.now));
    case OpIngestVote(v) =>
      ObserveVotePrunes(t, v, e.now);
      PrunedOpen(t, ObserveVote(t, v, e.now));
      IngestOpen(t, v, e.now);
    case OpMarkRoundAdvanced(h, r) =>
    case OpResolveCommit(h, hash) =>
      ArchiveCommitPrunes(t, h, hash, e.now);
      PrunedOpen(t, ArchiveCommit(t, h, hash, e.now));
      CommitOpen(t, h, hash, e.now);
  }

  lemma PrunedOpen(t: TrackerState, u: TrackerState)
    requires OpenIsLive(t) && OnlyPruned(t, u)
    ensures OpenIsLive(u)
  {
  }

  lemma IngestOpen(t: TrackerState, v: VoteEvent, now: int)
    requires OpenIsLive(ObserveVote(t, v, now))
    ensures OpenIsLive(Steps.IngestVote(t, v, now).tracker)
  {
    hide ObserveVote, ReportOf, Fires, HasVote;
  }

  lemma CommitOpen(t: TrackerState, h: int, hash: string, now: int)
    requires OpenIsLive(ArchiveCommit(t, h, hash, now))
    ensures OpenIsLive(Steps.ResolveCommit(t, h, hash, now))
  {
    hide ArchiveCommit, ResolvedReports;
  }

  lemma {:induction false} RunKeepsOpenLive(cfg: Config, run: seq<Timed>)
    ensures OpenIsLive(Run(cfg, run))
  {
    hide ArchiveOk, OpenIsLive, Step;
    if run == [] {
      assert OpenIsLive(NewTracker(cfg)) by { NewOpen(cfg); }
    } else {
      RunKeepsOpenLive(cfg, run[..|run| - 1]);
      RunOk(cfg, run[..|run| - 1]);
      StepKeepsOpenLive(Run(cfg, run[..|run| - 1]), run[|run| - 1]);
    }
  }

  lemma NewOpen(cfg: Config)
    ensures OpenIsLive(NewTracker(cfg))
  {
  }

  /** The live view never shows a round at or below the committed height. */
  lemma LiveViewIsAboveCommitted(cfg: Config, run: seq<Timed>, report: RoundReport)
    requires report in LiveReports(Run(cfg, run))
    ensures report.key.height > Run(cfg, run).committedHeight
  {
    RunKeepsOpenLive(cfg, run);
    hide Run, ReportOf;
    var t := Run(cfg, run);
    var k :| k in t.rounds && !t.rounds[k].resolved && report == ReportOf(t.rounds[k], k, t.cfg.thresholdPct);
    ReportKey(t.rounds[k], k, t.cfg.thresholdPct);
  }

  // ---------- what the live view shows ----------

  /** The report of an open record: its rows without any canonical one, and its totals. */
  ghost predicate ShowsOpen(t: TrackerState, report: RoundReport)
  {
    && report.key in t.rounds && !t.rounds[report.key].resolved && !report.resolved
    && Incidents.RowsShow(t.rounds[report.key], report.groups, None)
    && report.totalVotingPower == t.rounds[report.key].totalVotingPower
    && report.totalVotedPower == t.rounds[report.key].totalVotedPower
  }

  lemma OpenIsShown(t: TrackerState, report: RoundReport)
    requires report in LiveReports(t)
    ensures ShowsOpen(t, report)
  {
    hide ReportOf, Incidents.RowsShow;
    var k :| k in t.rounds && !t.rounds[k].resolved && report == ReportOf(t.rounds[k], k, t.cfg.thresholdPct);
    ReportKey(t.rounds[k], k, t.cfg.thresholdPct);
    Incidents.ReportFields(t.rounds[k], k, t.cfg.thresholdPct);
    Incidents.ReportRows(t.rounds[k], k, t.cfg.thresholdPct);
  }

  lemma OpenHasReport(t: TrackerState, k: Key)
    requires k in t.rounds && !t.rounds[k].resolved
    ensures exists report :: report in LiveReports(t) && report.key == k
  {
    ReportKey(t.rounds[k], k, t.cfg.thresholdPct);
    hide ReportOf;
    assert ReportOf(t.rounds[k], k, t.cfg.thresholdPct) in LiveReports(t);
  }

  /** Lower heights first, then earlier rounds, then prevotes before precommits. */
  predicate KeyBefore(a: Key, b: Key)
  {
    a.height < b.height || (a.height == b.height && Incidents.InOrder(a, b))
  }

  /** The live listing has one report for each open record, in order. */
  lemma LiveListsOpenRecords(t: TrackerState, live: seq<RoundReport>)
    requires ArchiveOk(t) && Elements(live) == LiveReports(t) && Ascending(LiveLess, live)
    ensures forall i :: 0 <= i < |live| ==> ShowsOpen(t, live[i])
    ensures forall k :: k in t.rounds && !t.rounds[k].resolved ==> exists i :: 0 <= i < |live| && live[i].key == k
    ensures forall i, j :: 0 <= i < j < |live| ==> KeyBefore(live[i].key, live[j].key)
  {
    KeysAreArchived(t);
    hide ArchiveOk, LiveReports, Incidents.RowsShow;
    forall i | 0 <= i < |live| ensures ShowsOpen(t, live[i]) {
      assert live[i] in Elements(live);
      OpenIsShown(t, live[i]);
    }
    forall k | k in t.rounds && !t.rounds[k].resolved ensures exists i :: 0 <= i < |live| && live[i].key == k {
      OpenHasReport(t, k);
      var report :| report in Elements(live) && report.key == k;
      var i :| 0 <= i < |live| && live[i] == report;
    }
    forall i, j | 0 <= i < j < |live| ensures KeyBefore(live[i].key, live[j].key) {
      assert LiveLess(live[i], live[j]) && ShowsOpen(t, live[i]) && ShowsOpen(t, live[j]);
    }
  }

  /** at lists, in order, exactly the places of the divergent reports of the history. */
  ghost predicate DivergentAt(history: seq<RoundReport>, at: seq<nat>)
  {
    && (forall i, j :: 0 <= i < j < |at| ==> at[i] < at[j])
    && (forall n :: n in at <==> 0 <= n < |history| && history[n].isDivergent)
  }

  /** The divergent view picks exactly the divergent reports of the history, in order. */
  lemma {:induction false} DivergentPicks(history: seq<RoundReport>) returns (at: seq<nat>)
    ensures DivergentAt(history, at) && |DivergentOf(history)| == |at|
    ensures forall i :: 0 <= i < |at| && at[i] < |history| ==> DivergentOf(history)[i] == history[at[i]]
  {
    at := [];
    if history != [] {
      var front, n := history[..|history| - 1], |history| - 1;
      at := DivergentPicks(front);
      forall i | 0 <= i < |at| ensures at[i] < n {
        assert at[i] in at;
      }
      if history[n].isDivergent { at := at + [n]; }
    }
  }
}
