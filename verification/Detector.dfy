/**
 internal/divergence/tracker.go: one (height, round, type) record of the live detector, its report,
 and the laws of the verdict.
 */
module Detector {
  import opened Common
  import opened TrackerTypes

  // ---------- tallies ----------

  /** Summed weight of a listing of voters, in the order the source adds them. */
  function SeqPower(vs: seq<string>, m: Roster): int
  {
    if vs == [] then 0 else SeqPower(vs[..|vs| - 1], m) + PowerIn(m, vs[|vs| - 1])
  }

  function Sample(names: seq<string>, name: string): seq<string>
  {
    if name != "" && |names| < SAMPLE_LIMIT then names + [name] else names
  }

  function SampleOf(vs: seq<string>, m: Roster): seq<string>
  {
    if vs == [] then [] else Sample(SampleOf(vs[..|vs| - 1], m), MonikerIn(m, vs[|vs| - 1]))
  }

  ghost function Weigh(m: Roster): string -> int { (a: string) => PowerIn(m, a) }

  ghost function GroupPowers(gs: map<string, Group>): string -> int
  {
    (h: string) => if h in gs then gs[h].power else 0
  }

  ghost predicate NonNegative(m: Roster) { forall a :: a in m ==> m[a].power >= 0 }

  // ---------- steps ----------

  function NewRoundData(m: Roster, total: int): RoundData
  {
    RoundData(map[], {}, total, 0, m, false, "", false, false, false)
  }

  /** The counting part of IngestVote for a voter that has not been seen. */
  function AddVote(rd: RoundData, a: string, hash: string): RoundData
  {
    var g := if hash in rd.groups then rd.groups[hash] else Group(0, [], []);
    var power := PowerIn(rd.validators, a);
    var grown := Group(g.power + power, g.validators + [a], Sample(g.monikers, MonikerIn(rd.validators, a)));
    rd.(seen := rd.seen + {a}, groups := rd.groups[hash := grown], totalVotedPower := rd.totalVotedPower + power)
  }

  /** The late-roster loop of SetValidators, for one record. */
  ghost function Reweigh(rd: RoundData, m: Roster, total: int): RoundData
  {
    if rd.totalVotingPower != 0 then rd else
      var groups := map h | h in rd.groups ::
        Group(SeqPower(rd.groups[h].validators, m), rd.groups[h].validators, SampleOf(rd.groups[h].validators, m));
      rd.(validators := m, totalVotingPower := total, groups := groups,
        totalVotedPower := Sum(groups.Keys, GroupPowers(groups)))
  }

  // ---------- conservation ----------

  /** The groups partition the voters seen: one group per voter, no voter twice. */
  ghost predicate Partition(groups: map<string, Group>, seen: set<string>)
  {
    && (forall h :: h in groups ==> Distinct(groups[h].validators) && Elements(groups[h].validators) <= seen)
    && (forall h, k ::
      h in groups && k in groups && h != k ==> Elements(groups[h].validators) !! Elements(groups[k].validators))
    && (forall a :: a in seen ==> exists h :: h in groups && a in Elements(groups[h].validators))
  }

  ghost predicate DetectorOk(rd: RoundData)
  {
    && Partition(rd.groups, rd.seen)
    && (forall h :: h in rd.groups ==> rd.groups[h].power == SeqPower(rd.groups[h].validators, rd.validators))
    && rd.totalVotedPower == Sum(rd.groups.Keys, GroupPowers(rd.groups))
    && rd.totalVotedPower == Sum(rd.seen, Weigh(rd.validators))
  }

  /** Roster weights are nonnegative and the recorded total covers all of them. */
  ghost predicate RosterTotal(m: Roster, total: int)
  {
    NonNegative(m) && Sum(m.Keys, Weigh(m)) <= total
  }

  lemma {:induction false} SeqPowerIsSum(vs: seq<string>, m: Roster)
    requires Distinct(vs)
    ensures SeqPower(vs, m) == Sum(Elements(vs), Weigh(m))
  {
    if vs != [] {
      var front, last := vs[..|vs| - 1], vs[|vs| - 1];
      SeqPowerIsSum(front, m);
      assert vs == front + [last];
      assert Elements(vs) == Elements(front) + {last};
      assert last !in Elements(front);
      SumInsert(Elements(front), Weigh(m), last);
    }
  }

  lemma PartitionStep(groups: map<string, Group>, seen: set<string>, m: Roster, h: string)
    requires h in groups && Distinct(groups[h].validators) && Elements(groups[h].validators) <= seen
    requires groups[h].power == SeqPower(groups[h].validators, m)
    requires Sum((groups - {h}).Keys, GroupPowers(groups - {h})) == Sum(seen - Elements(groups[h].validators), Weigh(m))
    ensures Sum(groups.Keys, GroupPowers(groups)) == Sum(seen, Weigh(m))
  {
    var rest, members := groups - {h}, Elements(groups[h].validators);
    assert rest.Keys == groups.Keys - {h};
    SumRemove(groups.Keys, GroupPowers(groups), h);
    SumAgree(rest.Keys, GroupPowers(groups), GroupPowers(rest));
    SeqPowerIsSum(groups[h].validators, m);
    SumUnion(members, seen - members, Weigh(m));
    assert members + (seen - members) == seen;
  }

  /** Counting voters group by group counts each voter once. */
  lemma {:induction false} PartitionSum(groups: map<string, Group>, seen: set<string>, m: Roster)
    requires Partition(groups, seen)
    requires forall h :: h in groups ==> groups[h].power == SeqPower(groups[h].validators, m)
    ensures Sum(groups.Keys, GroupPowers(groups)) == Sum(seen, Weigh(m))
    decreases |groups|
  {
    hide SeqPower;
    if groups == map[] {
      assert seen == {};
    } else {
      var h :| h in groups;
      PartitionMinus(groups, seen, h);
      PartitionSum(groups - {h}, seen - Elements(groups[h].validators), m);
      PartitionStep(groups, seen, m, h);
    }
  }

  lemma PartitionMinus(groups: map<string, Group>, seen: set<string>, h: string)
    requires Partition(groups, seen) && h in groups
    ensures Partition(groups - {h}, seen - Elements(groups[h].validators))
  {
    var rest, left := groups - {h}, seen - Elements(groups[h].validators);
    forall a | a in left ensures exists k :: k in rest && a in Elements(rest[k].validators) {
      var k :| k in groups && a in Elements(groups[k].validators);
      assert k in rest;
    }
  }

  /** The group that gains the voter; every other group is as before. */
  lemma AddVoteGroups(rd: RoundData, a: string, hash: string)
    ensures var next := AddVote(rd, a, hash);
      && next.groups.Keys == rd.groups.Keys + {hash}
      && (forall h :: h in rd.groups && h != hash ==> next.groups[h] == rd.groups[h])
      && next.groups[hash].validators == (if hash in rd.groups then rd.groups[hash].validators else []) + [a]
  {
  }

  lemma AddVoteMembers(rd: RoundData, a: string, hash: string)
    requires Partition(rd.groups, rd.seen) && a !in rd.seen
    ensures var vs := AddVote(rd, a, hash).groups[hash].validators;
      Distinct(vs) && Elements(vs) == (if hash in rd.groups then Elements(rd.groups[hash].validators) else {}) + {a}
  {
    AddVoteGroups(rd, a, hash);
    var before := if hash in rd.groups then rd.groups[hash].validators else [];
    assert Distinct(before) && a !in Elements(before);
    hide AddVote, Partition;
    AppendElement(before, a);
  }

  /** A voter that joins one block of a partition. */
  lemma PartitionGrows(groups: map<string, Group>, next: map<string, Group>, seen: set<string>, a: string, hash: string)
    requires Partition(groups, seen) && a !in seen && next.Keys == groups.Keys + {hash}
    requires forall h :: h in groups && h != hash ==> next[h] == groups[h]
    requires Distinct(next[hash].validators)
    requires Elements(next[hash].validators) == (if hash in groups then Elements(groups[hash].validators) else {}) + {a}
    ensures Partition(next, seen + {a})
  {
    hide Elements, Distinct;
    forall b | b in seen + {a} ensures exists h :: h in next && b in Elements(next[h].validators) {
      if b == a {
        assert b in Elements(next[hash].validators);
      } else {
        var h :| h in groups && b in Elements(groups[h].validators);
        assert h in next && b in Elements(next[h].validators);
      }
    }
  }

  lemma AddVotePartition(rd: RoundData, a: string, hash: string)
    requires Partition(rd.groups, rd.seen) && a !in rd.seen
    ensures Partition(AddVote(rd, a, hash).groups, AddVote(rd, a, hash).seen)
  {
    AddVoteGroups(rd, a, hash);
    AddVoteMembers(rd, a, hash);
    assert AddVote(rd, a, hash).seen == rd.seen + {a};
    hide AddVote, Partition, Elements, Distinct;
    PartitionGrows(rd.groups, AddVote(rd, a, hash).groups, rd.seen, a, hash);
  }

  lemma AddVotePowers(rd: RoundData, a: string, hash: string)
    requires forall h :: h in rd.groups ==> rd.groups[h].power == SeqPower(rd.groups[h].validators, rd.validators)
    ensures var next := AddVote(rd, a, hash);
      forall h :: h in next.groups ==> next.groups[h].power == SeqPower(next.groups[h].validators, next.validators)
  {
    var vs := AddVote(rd, a, hash).groups[hash].validators;
    assert vs[..|vs| - 1] == if hash in rd.groups then rd.groups[hash].validators else [];
  }

  lemma VotedPowerGrows(rd: RoundData, a: string, hash: string)
    requires a !in rd.seen && rd.totalVotedPower == Sum(rd.seen, Weigh(rd.validators))
    ensures AddVote(rd, a, hash).totalVotedPower == Sum(AddVote(rd, a, hash).seen, Weigh(rd.validators))
  {
    SumInsert(rd.seen, Weigh(rd.validators), a);
  }

  lemma AddVoteKeepsOk(rd: RoundData, a: string, hash: string)
    requires DetectorOk(rd) && a !in rd.seen
    ensures DetectorOk(AddVote(rd, a, hash))
  {
    hide Partition, SeqPower, AddVote;
    AddVotePartition(rd, a, hash);
    AddVotePowers(rd, a, hash);
    VotedPowerGrows(rd, a, hash);
    AddVoteValidators(rd, a, hash);
    PartitionSum(AddVote(rd, a, hash).groups, AddVote(rd, a, hash).seen, rd.validators);
  }

  lemma AddVoteValidators(rd: RoundData, a: string, hash: string)
    ensures var next := AddVote(rd, a, hash);
      next.validators == rd.validators && next.totalVotingPower == rd.totalVotingPower && next.seen == rd.seen + {a}
      && next.groups.Keys == rd.groups.Keys + {hash}
  {
  }

  /** Late roster seeding re-establishes conservation for every open record. */
  lemma ReweighKeepsOk(rd: RoundData, m: Roster, total: int)
    requires DetectorOk(rd)
    ensures DetectorOk(Reweigh(rd, m, total))
    ensures Reweigh(rd, m, total).seen == rd.seen && Reweigh(rd, m, total).groups.Keys == rd.groups.Keys
  {
    if rd.totalVotingPower == 0 {
      var next := Reweigh(rd, m, total);
      assert Partition(next.groups, next.seen) by {
        assert forall h :: h in next.groups ==> h in rd.groups && next.groups[h].validators == rd.groups[h].validators;
        forall a | a in next.seen ensures exists h :: h in next.groups && a in Elements(next.groups[h].validators) {
          var h :| h in rd.groups && a in Elements(rd.groups[h].validators);
          assert h in next.groups;
        }
      }
      PartitionSum(next.groups, next.seen, m);
    }
  }

  /** Voted power never exceeds the total the record was given. */
  lemma VotedAtMostTotal(rd: RoundData)
    requires DetectorOk(rd) && RosterTotal(rd.validators, rd.totalVotingPower)
    ensures 0 <= rd.totalVotedPower <= rd.totalVotingPower
    ensures forall h :: h in rd.groups ==> 0 <= rd.groups[h].power <= rd.totalVotedPower
  {
    var w := Weigh(rd.validators);
    var known := rd.seen * rd.validators.Keys;
    SumUnion(known, rd.seen - known, w);
    assert known + (rd.seen - known) == rd.seen;
    SumZero(rd.seen - known, w);
    SumAtMost(known, rd.validators.Keys, w);
    forall h | h in rd.groups ensures 0 <= rd.groups[h].power <= rd.totalVotedPower {
      SeqPowerIsSum(rd.groups[h].validators, rd.validators);
      SumAtMost(Elements(rd.groups[h].validators), rd.seen, w);
    }
  }

  // ---------- the report ----------

  function Pct(power: int, total: int): real
  {
    if total > 0 then 100.0 * (power as real) / (total as real) else 0.0
  }

  predicate Heavy(power: int, total: int, threshold: real)
  {
    Pct(power, total) >= threshold && power > 0
  }

  function RowOf(rd: RoundData, h: string): GroupRow
    requires h in rd.groups
  {
    var g := rd.groups[h];
    GroupRow(h, g.power, Pct(g.power, rd.totalVotingPower), g.validators, g.monikers, rd.resolved
      && h == rd.canonicalHash)
  }

  function Rows(rd: RoundData): set<GroupRow> { set h | h in rd.groups :: RowOf(rd, h) }

  /** The comparator of report: heavier first, equal weights by hash. */
  function RowLess(a: GroupRow, b: GroupRow): bool
  {
    if a.power == b.power then StrLess(a.hash, b.hash) else a.power > b.power
  }

  lemma RowsOrdered(rd: RoundData)
    ensures Orders(RowLess, Rows(rd))
  {
    var s := Rows(rd);
    forall a, b, c | a in s && b in s && c in s
      ensures !RowLess(a, a)
      ensures RowLess(a, b) ==> !RowLess(b, a)
      ensures RowLess(a, b) && RowLess(b, c) ==> RowLess(a, c)
      ensures a != b ==> RowLess(a, b) || RowLess(b, a)
    {
      StrLessAsym(a.hash, b.hash);
      StrLessAsym(a.hash, a.hash);
      if StrLess(a.hash, b.hash) && StrLess(b.hash, c.hash) { StrLessTrans(a.hash, b.hash, c.hash); }
      if a.hash != b.hash { StrLessTotal(a.hash, b.hash); }
    }
  }

  predicate HeavyRow(row: GroupRow, threshold: real)
  {
    row.hash != "" && row.pct >= threshold && row.power > 0
  }

  /** The scan of report: the first named group leads; any later named group may diverge. */
  ghost predicate ScanDivergent(rows: seq<GroupRow>, threshold: real)
  {
    exists i, j :: 0 <= i < j < |rows| && rows[i].hash != "" && HeavyRow(rows[j], threshold)
  }

  /** report */
  ghost function ReportOf(rd: RoundData, key: Key, threshold: real): RoundReport
  {
    RowsOrdered(rd);
    var rows := SortSet(RowLess, Rows(rd));
    RoundReport(key, rows, rd.totalVotingPower, rd.totalVotedPower, rd.resolved, rd.canonicalHash,
      ScanDivergent(rows, threshold))
  }

  // ---------- the verdict ----------

  /** Two different named groups, each of positive power and over the threshold. */
  ghost predicate Split(rd: RoundData, threshold: real)
  {
    exists h, k :: h != k && Over(rd, h, threshold) && Over(rd, k, threshold)
  }

  lemma PctMonotone(p: int, q: int, total: int)
    requires p <= q
    ensures Pct(p, total) <= Pct(q, total)
  {
    if total > 0 {
      var t := total as real;
      assert 100.0 * (p as real) <= 100.0 * (q as real);
      DivMonotone(100.0 * (p as real), 100.0 * (q as real), t);
    }
  }

  lemma DivMonotone(x: real, y: real, t: real)
    requires x <= y && t > 0.0
    ensures x / t <= y / t
  {
    assert (y / t - x / t) * t == y - x;
    NegativeProduct(y / t - x / t, t);
  }

  lemma NegativeProduct(d: real, t: real)
    requires t > 0.0
    ensures d < 0.0 ==> d * t < 0.0
  {
  }

  /** The percentage test is the cross-multiplied comparison. */
  lemma HeavyMeans(power: int, total: int, threshold: real)
    requires total > 0
    ensures Heavy(power, total, threshold) <==> power > 0 && 100.0 * (power as real) >= threshold * (total as real)
  {
    var t := total as real;
    var x := 100.0 * (power as real);
    assert x / t * t == x;
    if x / t >= threshold {
      assert (x / t - threshold) * t >= 0.0;
    } else {
      assert (threshold - x / t) * t > 0.0;
    }
  }

  ghost predicate Over(rd: RoundData, h: string, threshold: real)
  {
    h in rd.groups && h != "" && Heavy(rd.groups[h].power, rd.totalVotingPower, threshold)
  }

  lemma ScanImpliesSplit(rd: RoundData, rows: seq<GroupRow>, threshold: real)
    requires Elements(rows) == Rows(rd) && Ascending(RowLess, rows) && ScanDivergent(rows, threshold)
    ensures Split(rd, threshold)
  {
    var i, j :| 0 <= i < j < |rows| && rows[i].hash != "" && HeavyRow(rows[j], threshold);
    assert RowLess(rows[i], rows[j]);
    assert rows[i] in Elements(rows) && rows[j] in Elements(rows);
    PctMonotone(rows[j].power, rows[i].power, rd.totalVotingPower);
    StrLessAsym(rows[i].hash, rows[j].hash);
    assert Over(rd, rows[i].hash, threshold) && Over(rd, rows[j].hash, threshold);
  }

  lemma SplitImpliesScan(rd: RoundData, rows: seq<GroupRow>, threshold: real)
    requires Elements(rows) == Rows(rd) && Split(rd, threshold)
    ensures ScanDivergent(rows, threshold)
  {
    var h, k :| h != k && Over(rd, h, threshold) && Over(rd, k, threshold);
    assert RowOf(rd, h) in Elements(rows) && RowOf(rd, k) in Elements(rows);
    var i :| 0 <= i < |rows| && rows[i] == RowOf(rd, h);
    var j :| 0 <= j < |rows| && rows[j] == RowOf(rd, k);
    assert HeavyRow(rows[i], threshold) && HeavyRow(rows[j], threshold);
    assert i != j;
  }

  /** The sorted scan decides exactly whether two named groups are over the threshold. */
  lemma VerdictIsSplit(rd: RoundData, key: Key, threshold: real)
    ensures ReportOf(rd, key, threshold).isDivergent <==> Split(rd, threshold)
  {
    RowsOrdered(rd);
    var rows := SortSet(RowLess, Rows(rd));
    hide Split, ScanDivergent;
    if ScanDivergent(rows, threshold) { ScanImpliesSplit(rd, rows, threshold); }
    if Split(rd, threshold) { SplitImpliesScan(rd, rows, threshold); }
  }

  // ---------- order-free and monotone ----------

  /** Each voter's group: the hash of the first vote that was counted for it. */
  ghost predicate FirstVotes(rd: RoundData, first: map<string, string>)
  {
    && first.Keys == rd.seen
    && rd.groups.Keys == first.Values
    && (forall a :: a in first ==> VotedFor(rd, a, first[a]))
  }

  ghost predicate VotedFor(rd: RoundData, a: string, h: string)
  {
    h in rd.groups && a in Elements(rd.groups[h].validators)
  }

  ghost function VotersFor(first: map<string, string>, h: string): set<string> { set a | a in first && first[a] == h }

  ghost function Tally(first: map<string, string>, m: Roster, h: string): int { Sum(VotersFor(first, h), Weigh(m)) }

  ghost predicate TallyOver(first: map<string, string>, m: Roster, total: int, h: string, threshold: real)
  {
    h in first.Values && h != "" && Heavy(Tally(first, m, h), total, threshold)
  }

  /** The verdict computed from first votes and weights alone. */
  ghost predicate FirstVoteSplit(first: map<string, string>, m: Roster, total: int, threshold: real)
  {
    exists h, k :: h != k && TallyOver(first, m, total, h, threshold) && TallyOver(first, m, total, k, threshold)
  }

  lemma MemberVotedFor(rd: RoundData, first: map<string, string>, h: string, a: string)
    requires Partition(rd.groups, rd.seen) && FirstVotes(rd, first) && h in rd.groups
    ensures a in Elements(rd.groups[h].validators) <==> a in first && first[a] == h
  {
    hide Elements, Distinct;
    if a in first { assert VotedFor(rd, a, first[a]); }
  }

  lemma MembersAreVoters(rd: RoundData, first: map<string, string>, h: string)
    requires Partition(rd.groups, rd.seen) && FirstVotes(rd, first) && h in rd.groups
    ensures Elements(rd.groups[h].validators) == VotersFor(first, h)
  {
    hide Elements, Distinct, Partition, FirstVotes;
    forall a ensures a in Elements(rd.groups[h].validators) <==> a in VotersFor(first, h) {
      MemberVotedFor(rd, first, h, a);
    }
  }

  lemma GroupIsTally(rd: RoundData, first: map<string, string>, h: string)
    requires DetectorOk(rd) && FirstVotes(rd, first) && h in rd.groups
    ensures rd.groups[h].power == Tally(first, rd.validators, h)
  {
    assert Distinct(rd.groups[h].validators);
    hide Partition, FirstVotes, VotersFor, SeqPower, Elements;
    SeqPowerIsSum(rd.groups[h].validators, rd.validators);
    MembersAreVoters(rd, first, h);
  }

  lemma OverIsTallyOver(rd: RoundData, first: map<string, string>, h: string, threshold: real)
    requires DetectorOk(rd) && FirstVotes(rd, first)
    ensures Over(rd, h, threshold) <==> TallyOver(first, rd.validators, rd.totalVotingPower, h, threshold)
  {
    assert rd.groups.Keys == first.Values;
    if h in rd.groups { GroupIsTally(rd, first, h); }
    hide DetectorOk, FirstVotes, Tally, Heavy;
  }

  lemma SplitIsFirstVoteSplit(rd: RoundData, first: map<string, string>, threshold: real)
    requires DetectorOk(rd) && FirstVotes(rd, first)
    ensures Split(rd, threshold) <==> FirstVoteSplit(first, rd.validators, rd.totalVotingPower, threshold)
  {
    hide DetectorOk, FirstVotes, Over, TallyOver;
    forall h ensures Over(rd, h, threshold) <==> TallyOver(first, rd.validators, rd.totalVotingPower, h, threshold) {
      OverIsTallyOver(rd, first, h, threshold);
    }
  }

  /** The verdict depends on nothing but who voted first for what, and the weights. */
  lemma VerdictFromFirstVotes(rd: RoundData, first: map<string, string>, key: Key, threshold: real)
    requires DetectorOk(rd) && FirstVotes(rd, first)
    ensures ReportOf(rd, key, threshold).isDivergent
      <==> FirstVoteSplit(first, rd.validators, rd.totalVotingPower, threshold)
  {
    hide *;
    VerdictIsSplit(rd, key, threshold);
    SplitIsFirstVoteSplit(rd, first, threshold);
  }

  /** Counting a stream of (voter, hash) pairs: later votes of a voter are ignored. */
  function CountAll(rd: RoundData, votes: seq<(string, string)>): RoundData
  {
    if votes == [] then rd else
      var before := CountAll(rd, votes[..|votes| - 1]);
      var v := votes[|votes| - 1];
      if v.0 in before.seen then before else AddVote(before, v.0, v.1)
  }

  function FirstsOf(votes: seq<(string, string)>): map<string, string>
  {
    if votes == [] then map[] else
      var before := FirstsOf(votes[..|votes| - 1]);
      var v := votes[|votes| - 1];
      if v.0 in before then before else before[v.0 := v.1]
  }

  lemma ValuesGrow(first: map<string, string>, a: string, hash: string)
    requires a !in first
    ensures first[a := hash].Values == first.Values + {hash}
  {
    var firsts := first[a := hash];
    assert firsts[a] == hash;
    forall h | h in first.Values ensures h in firsts.Values {
      var b :| b in first && first[b] == h;
      assert firsts[b] == h;
    }
  }

  lemma VotedForStays(rd: RoundData, a: string, hash: string)
    ensures forall b, h :: VotedFor(rd, b, h) ==> VotedFor(AddVote(rd, a, hash), b, h)
    ensures VotedFor(AddVote(rd, a, hash), a, hash)
  {
    var before := if hash in rd.groups then rd.groups[hash].validators else [];
    assert AddVote(rd, a, hash).groups[hash].validators == before + [a];
    assert Elements(before + [a]) == Elements(before) + {a};
  }

  lemma AddVoteFirst(rd: RoundData, first: map<string, string>, a: string, hash: string)
    requires FirstVotes(rd, first) && a !in rd.seen
    ensures FirstVotes(AddVote(rd, a, hash), first[a := hash])
  {
    hide AddVote, VotedFor;
    VotedForStays(rd, a, hash);
    AddVoteValidators(rd, a, hash);
    ValuesGrow(first, a, hash);
    var next, firsts := AddVote(rd, a, hash), first[a := hash];
    assert firsts.Keys == next.seen;
    assert next.groups.Keys == firsts.Values;
    assert forall b :: b in firsts ==> VotedFor(next, b, firsts[b]);
  }

  lemma {:induction false} CountAllFacts(m: Roster, total: int, votes: seq<(string, string)>)
    ensures var rd := CountAll(NewRoundData(m, total), votes);
      DetectorOk(rd) && FirstVotes(rd, FirstsOf(votes)) && rd.validators == m && rd.totalVotingPower == total
  {
    if votes != [] {
      CountAllFacts(m, total, votes[..|votes| - 1]);
      var before := CountAll(NewRoundData(m, total), votes[..|votes| - 1]);
      var v := votes[|votes| - 1];
      if v.0 !in before.seen {
        AddVoteKeepsOk(before, v.0, v.1);
        AddVoteFirst(before, FirstsOf(votes[..|votes| - 1]), v.0, v.1);
      }
    }
  }

  /** Any two streams in which every voter's first vote is the same reach the same verdict. */
  lemma VerdictIsOrderFree(m: Roster, total: int, threshold: real, key: Key, votes: seq<(string, string)>,
        others: seq<(string, string)>)
    requires FirstsOf(votes) == FirstsOf(others)
    ensures ReportOf(CountAll(NewRoundData(m, total), votes), key, threshold).isDivergent
         == ReportOf(CountAll(NewRoundData(m, total), others), key, threshold).isDivergent
  {
    CountAllFacts(m, total, votes);
    CountAllFacts(m, total, others);
    VerdictFromFirstVotes(CountAll(NewRoundData(m, total), votes), FirstsOf(votes), key, threshold);
    VerdictFromFirstVotes(CountAll(NewRoundData(m, total), others), FirstsOf(others), key, threshold);
  }

  lemma OverStays(rd: RoundData, a: string, hash: string, h: string, threshold: real)
    requires NonNegative(rd.validators) && Over(rd, h, threshold)
    ensures Over(AddVote(rd, a, hash), h, threshold)
  {
    var next := AddVote(rd, a, hash);
    assert next.groups[h].power >= rd.groups[h].power;
    PctMonotone(rd.groups[h].power, next.groups[h].power, rd.totalVotingPower);
  }

  /** Once divergent, further votes keep it divergent. */
  lemma VerdictIsMonotone(rd: RoundData, a: string, hash: string, key: Key, threshold: real)
    requires NonNegative(rd.validators)
    requires ReportOf(rd, key, threshold).isDivergent
    ensures ReportOf(AddVote(rd, a, hash), key, threshold).isDivergent
  {
    VerdictIsSplit(rd, key, threshold);
    VerdictIsSplit(AddVote(rd, a, hash), key, threshold);
    var h, k :| h != k && Over(rd, h, threshold) && Over(rd, k, threshold);
    OverStays(rd, a, hash, h, threshold);
    OverStays(rd, a, hash, k, threshold);
  }

  /** A divergent record already has its roster, so late seeding cannot touch it. */
  lemma SeedingKeepsVerdict(rd: RoundData, m: Roster, total: int, key: Key, threshold: real)
    requires DetectorOk(rd) && RosterTotal(rd.validators, rd.totalVotingPower)
    requires ReportOf(rd, key, threshold).isDivergent
    ensures Reweigh(rd, m, total) == rd
  {
    VerdictIsSplit(rd, key, threshold);
    VotedAtMostTotal(rd);
  }

  /** The named rows of a report, heaviest first. */
  function NamedRows(rows: seq<GroupRow>): seq<GroupRow>
  {
    if rows == [] then [] else (if rows[0].hash != "" then [rows[0]] else []) + NamedRows(rows[1..])
  }

  ghost predicate HeavyFrom(rows: seq<GroupRow>, from: nat, threshold: real)
  {
    exists j :: from <= j < |rows| && HeavyRow(rows[j], threshold)
  }

  lemma HeavyCons(row: GroupRow, rows: seq<GroupRow>, threshold: real)
    ensures HeavyFrom([row] + rows, 1, threshold) <==> HeavyFrom(rows, 0, threshold)
    ensures HeavyFrom([row] + rows, 0, threshold) <==> HeavyRow(row, threshold) || HeavyFrom(rows, 0, threshold)
  {
    var all := [row] + rows;
    assert all[0] == row;
    if HeavyFrom(rows, 0, threshold) {
      var j :| 0 <= j < |rows| && HeavyRow(rows[j], threshold);
      assert all[j + 1] == rows[j];
    }
    assert forall j :: 1 <= j < |all| ==> all[j] == rows[j - 1];
  }

  lemma ScanCons(row: GroupRow, rows: seq<GroupRow>, threshold: real)
    ensures ScanDivergent([row] + rows, threshold)
      <==> ScanDivergent(rows, threshold) || (row.hash != "" && HeavyFrom(rows, 0, threshold))
  {
    var all := [row] + rows;
    assert forall j :: 1 <= j < |all| ==> all[j] == rows[j - 1];
    if ScanDivergent(rows, threshold) {
      var i, j :| 0 <= i < j < |rows| && rows[i].hash != "" && HeavyRow(rows[j], threshold);
      assert all[i + 1] == rows[i] && all[j + 1] == rows[j];
    }
    if row.hash != "" && HeavyFrom(rows, 0, threshold) {
      var j :| 0 <= j < |rows| && HeavyRow(rows[j], threshold);
      assert all[0] == row && all[j + 1] == rows[j];
    }
  }

  lemma {:induction false} ScanNamed(rows: seq<GroupRow>, threshold: real)
    ensures ScanDivergent(rows, threshold) <==> HeavyFrom(NamedRows(rows), 1, threshold)
    ensures HeavyFrom(rows, 0, threshold) <==> HeavyFrom(NamedRows(rows), 0, threshold)
  {
    if rows != [] {
      var row, rest := rows[0], rows[1..];
      assert rows == [row] + rest;
      ScanNamed(rest, threshold);
      HeavyCons(row, rest, threshold);
      ScanCons(row, rest, threshold);
      HeavyCons(row, NamedRows(rest), threshold);
      if HeavyFrom(NamedRows(rest), 1, threshold) {
        var j :| 1 <= j < |NamedRows(rest)| && HeavyRow(NamedRows(rest)[j], threshold);
        assert HeavyFrom(NamedRows(rest), 0, threshold);
      }
      assert NamedRows(rows) == if row.hash != "" then [row] + NamedRows(rest) else NamedRows(rest);
    }
  }

  lemma {:induction false} NamedAscending(rows: seq<GroupRow>)
    requires Ascending(RowLess, rows)
    ensures Ascending(RowLess, NamedRows(rows))
    ensures forall x :: x in NamedRows(rows) ==> x in rows && x.hash != ""
  {
    if rows != [] {
      var rest := rows[1..];
      NamedAscending(rest);
      var named, tail := NamedRows(rows), NamedRows(rest);
      forall x | x in rest ensures x in rows && RowLess(rows[0], x) {
        var i :| 0 <= i < |rest| && rest[i] == x;
        assert rows[i + 1] == x;
      }
      forall i, j | 0 <= i < j < |named| ensures RowLess(named[i], named[j]) {
        if rows[0].hash != "" { assert named[j] == tail[j - 1] && tail[j - 1] in rest; }
      }
    }
  }

  /** The verdict is that of the second-largest named group. */
  lemma VerdictIsSecondLargest(rd: RoundData, key: Key, threshold: real)
    ensures var named := NamedRows(ReportOf(rd, key, threshold).groups);
      ReportOf(rd, key, threshold).isDivergent <==>
        |named| >= 2 && Heavy(named[1].power, rd.totalVotingPower, threshold)
  {
    RowsOrdered(rd);
    var rows := SortSet(RowLess, Rows(rd));
    var named := NamedRows(rows);
    ScanNamed(rows, threshold);
    NamedAscending(rows);
    forall j | 0 <= j < |named|
      ensures named[j].pct == Pct(named[j].power, rd.totalVotingPower) && named[j].hash != "" {
      assert named[j] in named;
      assert named[j] in Elements(rows);
    }
    if HeavyFrom(named, 1, threshold) {
      var j :| 1 <= j < |named| && HeavyRow(named[j], threshold);
      if j > 1 { assert RowLess(named[1], named[j]); }
      PctMonotone(named[j].power, named[1].power, rd.totalVotingPower);
    }
    if |named| >= 2 && Heavy(named[1].power, rd.totalVotingPower, threshold) {
      assert HeavyRow(named[1], threshold);
    }
  }
}
