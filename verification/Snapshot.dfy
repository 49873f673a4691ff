/**
 internal/divergence/archive.go and archive_snapshot.go: the report built from retained evidence.
 Voting powers are integers here; the source formats them as decimal text and reads them back.
 */
module Snapshot {
  import opened Common
  import opened TrackerTypes
  import opened Archive

  // ---------- report records ----------

  datatype VoteView = VoteView(observed: bool, hashes: seq<HashSeen>, conflicting: bool, truncated: bool)

  datatype ValidatorView = ValidatorView(address: string, moniker: string, power: int, known: bool, prevote: VoteView,
    precommit: VoteView)
  {
    /** Any kind other than Precommit reads the prevote, as in the source. */
    function At(kind: VoteType): VoteView { if kind == Precommit then precommit else prevote }

    function Weight(): int { if power < 0 then 0 else power }
  }

  datatype PhaseGroup = PhaseGroup(hash: string, power: int, validators: seq<string>, isCanonical: bool)

  datatype PhaseView = PhaseView(
    groups: seq<PhaseGroup>,
    observedPower: int,
    observedCount: int,
    notObservedPower: int,
    notObserved: seq<string>,
    conflicting: seq<string>)

  datatype RoundView = RoundView(
    round: int,
    proposer: string,
    firstSeen: int,
    lastSeen: int,
    rosterComplete: bool,
    totalPower: int,
    validators: seq<ValidatorView>,
    prevotes: PhaseView,
    precommits: PhaseView,
    truncated: bool)

  datatype Status = NotObserved | Evicted | Live | Passed | Committed

  datatype BlockView = BlockView(
    height: int,
    found: bool,
    status: Status,
    committed: bool,
    canonicalHash: string,
    seen: Option<(int, int)>,
    rounds: seq<RoundView>,
    truncated: bool,
    coverage: CoverageView,
    heightLimit: int,
    earliest: int,
    latest: int,
    retained: seq<int>)

  datatype CoverageView = CoverageView(firstLast: Option<(int, int)>, observed: int, missing: int, evicted: int,
    rosterComplete: bool)

  // ---------- rows of a round ----------

  function ViewOf(vote: Option<PhaseVote>): VoteView
  {
    match vote
    case None => VoteView(false, [], false, false)
    case Some(v) => VoteView(true, v.hashes, v.conflicting, v.truncated)
  }

  function RowOf(rd: ArchivedRound, a: string): ValidatorView
  {
    ValidatorView(a, MonikerIn(rd.roster, a), PowerIn(rd.roster, a), a in rd.roster, ViewOf(rd.Vote(a, Prevote)),
      ViewOf(rd.Vote(a, Precommit)))
  }

  function Addresses(rd: ArchivedRound): set<string> { rd.roster.Keys + rd.votes.Keys }

  function RowLess(a: ValidatorView, b: ValidatorView): bool { StrLess(a.address, b.address) }

  ghost function RowSet(rd: ArchivedRound, on: set<string>): set<ValidatorView> { set a | a in on :: RowOf(rd, a) }

  lemma RowsOrdered(rd: ArchivedRound, on: set<string>)
    ensures Orders(RowLess, RowSet(rd, on))
  {
    StrOrders(on);
    forall x | x in RowSet(rd, on) ensures x.address in on && x == RowOf(rd, x.address) { }
  }

  ghost function RowsOf(rd: ArchivedRound): seq<ValidatorView>
  {
    RowsOrdered(rd, Addresses(rd));
    SortSet(RowLess, RowSet(rd, Addresses(rd)))
  }

  /** What a known validator adds to the round's total. */
  ghost function KnownPower(rd: ArchivedRound): string -> int
  {
    (a: string) => if a in rd.roster && rd.roster[a].power > 0 then rd.roster[a].power else 0
  }

  // ---------- one phase ----------

  function Credit(g: map<string, PhaseGroup>, hash: string, row: ValidatorView, canonical: string,
        committed: bool): map<string, PhaseGroup>
  {
    var prior := if hash in g then g[hash] else PhaseGroup(hash, 0, [], committed && hash != "" && canonical == hash);
    g[hash := prior.(validators := prior.validators + [row.address], power := prior.power + row.Weight())]
  }

  function CreditAll(g: map<string, PhaseGroup>, hashes: seq<HashSeen>, row: ValidatorView, canonical: string,
        committed: bool): map<string, PhaseGroup>
  {
    if hashes == [] then g
    else Credit(CreditAll(g, hashes[..|hashes| - 1], row, canonical, committed), hashes[|hashes| - 1].hash, row,
      canonical, committed)
  }

  datatype PhaseSums = PhaseSums(
    groups: map<string, PhaseGroup>,
    observed: int,
    count: int,
    absent: int,
    absentees: seq<string>,
    conflicting: seq<string>)

  /** The loop of snapshotPhase over the rows, one row at a time. */
  function SumPhase(rows: seq<ValidatorView>, kind: VoteType, canonical: string, committed: bool): PhaseSums
  {
    if rows == [] then PhaseSums(map[], 0, 0, 0, [], []) else
      var s, row := SumPhase(rows[..|rows| - 1], kind, canonical, committed), rows[|rows| - 1];
      var vote := row.At(kind);
      if !vote.observed then s.(absent := s.absent + row.Weight(), absentees := s.absentees + [row.address])
      else s.(observed := s.observed + row.Weight(), count := s.count + 1,
              conflicting := s.conflicting + if vote.conflicting then [row.address] else [],
              groups := CreditAll(s.groups, vote.hashes, row, canonical, committed))
  }

  function GroupLess(a: PhaseGroup, b: PhaseGroup): bool
  {
    if a.power != b.power then a.power > b.power else StrLess(a.hash, b.hash)
  }

  ghost predicate Named(g: map<string, PhaseGroup>) { forall h :: h in g ==> g[h].hash == h }

  ghost function GroupSet(g: map<string, PhaseGroup>): set<PhaseGroup> { set h | h in g :: g[h] }

  lemma GroupsOrdered(g: map<string, PhaseGroup>)
    requires Named(g)
    ensures Orders(GroupLess, GroupSet(g))
  {
    StrOrders(g.Keys);
    forall x | x in GroupSet(g) ensures x.hash in g && x == g[x.hash] { }
    hide StrLess;
  }

  lemma {:induction false} CreditAllNamed(g: map<string, PhaseGroup>, hashes: seq<HashSeen>, row: ValidatorView,
        canonical: string, committed: bool)
    requires Named(g)
    ensures Named(CreditAll(g, hashes, row, canonical, committed))
  {
    if hashes != [] { CreditAllNamed(g, hashes[..|hashes| - 1], row, canonical, committed); }
  }

  lemma {:induction false} SumPhaseNamed(rows: seq<ValidatorView>, kind: VoteType, canonical: string, committed: bool)
    ensures Named(SumPhase(rows, kind, canonical, committed).groups)
  {
    if rows != [] {
      SumPhaseNamed(rows[..|rows| - 1], kind, canonical, committed);
      CreditAllNamed(SumPhase(rows[..|rows| - 1], kind, canonical, committed).groups, rows[|rows| - 1].At(kind).hashes,
        rows[|rows| - 1], canonical, committed);
    }
  }

  ghost function PhaseOf(rows: seq<ValidatorView>, kind: VoteType, canonical: string, committed: bool): PhaseView
  {
    SumPhaseNamed(rows, kind, canonical, committed);
    var s := SumPhase(rows, kind, canonical, committed);
    GroupsOrdered(s.groups);
    PhaseView(SortSet(GroupLess, GroupSet(s.groups)), s.observed, s.count, s.absent, s.absentees, s.conflicting)
  }

  /** snapshotArchiveRound */
  ghost function RoundViewOf(rd: ArchivedRound, canonical: string, committed: bool): RoundView
  {
    RoundView(rd.round, rd.proposer, rd.firstSeen, rd.lastSeen, rd.roster != map[] && rd.votes.Keys <= rd.roster.Keys,
              Sum(Addresses(rd), KnownPower(rd)), RowsOf(rd),
              PhaseOf(RowsOf(rd), Prevote, canonical, committed), PhaseOf(RowsOf(rd), Precommit, canonical, committed),
                rd.truncated)
  }

  // ---------- the loops ----------

  /** One voter joins the group of one hash, which is started if nobody did before. */
  method CreditHash(before: map<string, PhaseGroup>, h: string, row: ValidatorView, canonical: string, committed: bool)
    returns (groups: map<string, PhaseGroup>)
    ensures groups == Credit(before, h, row, canonical, committed)
  {
    groups := before;
    var started := PhaseGroup(h, 0, [], committed && h != "" && canonical == h);
    if h !in groups { groups := groups[h := started]; }
    groups := groups[h := groups[h].(validators := groups[h].validators + [row.address],
      power := groups[h].power + row.Weight())];
  }

  /** The inner loop of snapshotPhase: one voter joins the group of each of its hashes. */
  method CreditVote(before: map<string, PhaseGroup>, hashes: seq<HashSeen>, row: ValidatorView, canonical: string,
        committed: bool)
    returns (groups: map<string, PhaseGroup>)
    ensures groups == CreditAll(before, hashes, row, canonical, committed)
  {
    hide Credit;
    groups := before;
    for j := 0 to |hashes|
      invariant groups == CreditAll(before, hashes[..j], row, canonical, committed)
    {
      assert hashes[..j + 1][..j] == hashes[..j];
      groups := CreditHash(groups, hashes[j].hash, row, canonical, committed);
    }
    assert hashes[..|hashes|] == hashes;
  }

  /** The outer loop of snapshotPhase. */
  method AddUp(rows: seq<ValidatorView>, kind: VoteType, canonical: string, committed: bool) returns (s: PhaseSums)
    ensures s == SumPhase(rows, kind, canonical, committed)
  {
    hide CreditAll;
    s := PhaseSums(map[], 0, 0, 0, [], []);
    for i := 0 to |rows|
      invariant s == SumPhase(rows[..i], kind, canonical, committed)
    {
      var row := rows[i];
      var vote := if kind == Precommit then row.precommit else row.prevote;
      assert rows[..i + 1][..i] == rows[..i];
      if !vote.observed {
        s := s.(absent := s.absent + row.Weight(), absentees := s.absentees + [row.address]);
      } else {
        s := s.(observed := s.observed + row.Weight(), count := s.count + 1);
        if vote.conflicting { s := s.(conflicting := s.conflicting + [row.address]); }
        var groups := CreditVote(s.groups, vote.hashes, row, canonical, committed);
        s := s.(groups := groups);
      }
    }
    assert rows[..|rows|] == rows;
  }

  /** snapshotPhase */
  method SnapshotPhase(rows: seq<ValidatorView>, kind: VoteType, canonical: string, committed: bool)
        returns (result: PhaseView)
    ensures result == PhaseOf(rows, kind, canonical, committed)
  {
    var s := AddUp(rows, kind, canonical, committed);
    SumPhaseNamed(rows, kind, canonical, committed);
    GroupsOrdered(s.groups);
    hide SumPhase, Orders, Ascending, Elements, GroupLess;
    var listed := ListGroups(s.groups);
    listed := SortSlice(GroupLess, listed);
    result := PhaseView(listed, s.observed, s.count, s.absent, s.absentees, s.conflicting);
  }

  /** The groups of the map, in the order a range over it happens to visit them. */
  method ListGroups(groups: map<string, PhaseGroup>) returns (listed: seq<PhaseGroup>)
    requires Named(groups)
    ensures Elements(listed) == GroupSet(groups)
    ensures Distinct(listed)
  {
    listed := [];
    var rest := groups.Keys;
    while rest != {}
      invariant rest <= groups.Keys
      invariant Elements(listed) == GroupsBut(groups, rest)
      invariant Distinct(listed)
      decreases |rest|
    {
      var h := Take(rest);
      ListOne(groups, rest, listed, h);
      listed := listed + [groups[h]];
      rest := rest - {h};
    }
  }

  ghost function GroupsBut(groups: map<string, PhaseGroup>, rest: set<string>): set<PhaseGroup>
  {
    set h | h in groups && h !in rest :: groups[h]
  }

  lemma ListOne(groups: map<string, PhaseGroup>, rest: set<string>, listed: seq<PhaseGroup>, h: string)
    requires Named(groups) && h in rest && rest <= groups.Keys && Elements(listed) == GroupsBut(groups, rest)
    ensures Elements(listed + [groups[h]]) == GroupsBut(groups, rest - {h})
    ensures Distinct(listed) ==> Distinct(listed + [groups[h]])
  {
    AppendElement(listed, groups[h]);
    forall i | 0 <= i < |listed| ensures listed[i] != groups[h] { assert listed[i] in Elements(listed); }
    forall x ensures x in Elements(listed + [groups[h]]) <==> x in GroupsBut(groups, rest - {h}) {
      assert x in Elements(listed + [groups[h]]) <==> x in Elements(listed) || x == groups[h];
    }
  }

  /** The rows of snapshotArchiveRound before they are sorted, with what the loop adds up beside them. */
  method ListRows(rd: ArchivedRound) returns (rows: seq<ValidatorView>, total: int, rosterComplete: bool)
    ensures Elements(rows) == RowSet(rd, Addresses(rd))
    ensures Distinct(rows)
    ensures total == Sum(Addresses(rd), KnownPower(rd))
    ensures rosterComplete <==> rd.roster != map[] && Addresses(rd) <= rd.roster.Keys
  {
    hide RowSet, Elements, RowOf, Sum, Distinct, Addresses;
    rosterComplete, total, rows := rd.roster != map[], 0, [];
    NoRows(rd);
    var rest := Addresses(rd);
    ghost var done, all := {}, rest;
    while rest != {}
      invariant rest + done == all && rest !! done
      invariant total == Sum(done, KnownPower(rd))
      invariant rosterComplete <==> rd.roster != map[] && done <= rd.roster.Keys
      invariant Elements(rows) == RowSet(rd, done)
      invariant Distinct(rows)
      decreases |rest|
    {
      var a := Take(rest);
      Visit(rest, done, all, a);
      SumInsert(done, KnownPower(rd), a);
      AppendRow(rd, rows, done, a);
      if a !in rd.roster { rosterComplete := false; }
      total := total + if a in rd.roster && rd.roster[a].power > 0 then rd.roster[a].power else 0;
      rows := rows + [RowOf(rd, a)];
      rest, done := rest - {a}, done + {a};
    }
    assert done == all;
  }

  lemma NoRows(rd: ArchivedRound)
    ensures Elements<ValidatorView>([]) == RowSet(rd, {}) && Distinct<ValidatorView>([]) && Sum({}, KnownPower(rd)) == 0
  {
  }

  /** snapshotArchiveRound */
  method SnapshotRound(rd: ArchivedRound, canonical: string, committed: bool) returns (result: RoundView)
    ensures result == RoundViewOf(rd, canonical, committed)
  {
    var rows, total, rosterComplete := ListRows(rd);
    assert Addresses(rd) <= rd.roster.Keys <==> rd.votes.Keys <= rd.roster.Keys;
    hide Orders, Ascending, Elements, RowSet, RowLess, PhaseOf;
    RowsOrdered(rd, Addresses(rd));
    rows := SortSlice(RowLess, rows);
    var prevotes := SnapshotPhase(rows, Prevote, canonical, committed);
    var precommits := SnapshotPhase(rows, Precommit, canonical, committed);
    result := RoundView(rd.round, rd.proposer, rd.firstSeen, rd.lastSeen, rosterComplete, total, rows, prevotes,
      precommits, rd.truncated);
  }

  lemma AppendRow(rd: ArchivedRound, rows: seq<ValidatorView>, done: set<string>, a: string)
    requires Elements(rows) == RowSet(rd, done) && a !in done
    ensures Elements(rows + [RowOf(rd, a)]) == RowSet(rd, done + {a})
    ensures Distinct(rows) ==> Distinct(rows + [RowOf(rd, a)])
  {
    AppendElement(rows, RowOf(rd, a));
    forall i | 0 <= i < |rows| ensures rows[i].address in done { assert rows[i] in Elements(rows); }
    forall x ensures x in Elements(rows + [RowOf(rd, a)]) <==> x in RowSet(rd, done + {a}) {
      assert x in Elements(rows + [RowOf(rd, a)]) <==> x in Elements(rows) || x == RowOf(rd, a);
    }
  }

  // ---------- the whole report ----------

  ghost function RetainedHeights(t: TrackerState): seq<int> { SortSet(IntLess, t.archive.Keys) }

  predicate PassedBy(t: TrackerState, h: int) { h < t.archiveLatestHeight || h <= t.committedHeight }

  function CoverageOf(b: ArchivedHeight): CoverageView
  {
    CoverageView(if b.roundsObserved > 0 then Some((b.firstRound, b.lastRound))
      else None, b.roundsObserved, MissingRounds(b), b.roundsEvicted, |b.rounds| > 0)
  }

  const NO_COVERAGE := CoverageView(None, 0, 0, 0, false)

  /** investigationHeaderLocked */
  ghost function HeaderOf(t: TrackerState, h: int): BlockView
  {
    var retained := RetainedHeights(t);
    var earliest, latest := if retained == [] then 0 else retained[0], if retained == [] then 0
      else retained[|retained| - 1];
    if h !in t.archive then
      var evicted := 0 < h <= t.archiveEvictedThrough;
      BlockView(h, false, if evicted then Evicted
        else NotObserved, false, "", None, [], evicted, NO_COVERAGE, t.cfg.historySize, earliest, latest, retained)
    else
      var b := t.archive[h];
      var status := if b.committed then Committed else if PassedBy(t, h) then Passed else Live;
      BlockView(h, true, status, b.committed, b.canonicalHash, Some((b.firstSeen, b.lastSeen)), [], b.roundsEvicted > 0,
        CoverageOf(b),
                t.cfg.historySize, earliest, latest, retained)
  }

  function RoundLess(a: RoundView, b: RoundView): bool { a.round < b.round }

  ghost function RoundViews(b: ArchivedHeight, on: set<int>): set<RoundView>
    requires on <= b.rounds.Keys
  {
    set r | r in on :: RoundViewOf(b.rounds[r], b.canonicalHash, b.committed)
  }

  /** Each round is filed under its own number. */
  ghost predicate Filed(b: ArchivedHeight) { forall r :: r in b.rounds ==> b.rounds[r].round == r }

  lemma RoundsOrdered(b: ArchivedHeight, on: set<int>)
    requires Filed(b) && on <= b.rounds.Keys
    ensures Orders(RoundLess, RoundViews(b, on))
  {
    hide RowsOf, PhaseOf;
    forall x | x in RoundViews(b, on)
      ensures x.round in on && x == RoundViewOf(b.rounds[x.round], b.canonicalHash, b.committed)
    {
    }
  }

  /** CaptureInvestigation followed by Build: the full report of one height. */
  ghost function FullReport(t: TrackerState, h: int): BlockView
    requires h in t.archive ==> Filed(t.archive[h])
  {
    var header := HeaderOf(t, h);
    if h !in t.archive then header else
      var b := t.archive[h];
      RoundsOrdered(b, b.rounds.Keys);
      header.(rounds := SortSet(RoundLess, RoundViews(b, b.rounds.Keys)),
              truncated := header.truncated || SomeTruncated(b, b.rounds.Keys),
              coverage := header.coverage.(rosterComplete := |b.rounds| > 0 && AllComplete(b, b.rounds.Keys)))
  }

  /** The retained heights, ascending. */
  method ListHeights(t: TrackerState) returns (retained: seq<int>)
    ensures retained == RetainedHeights(t)
  {
    retained := [];
    var rest := t.archive.Keys;
    while rest != {}
      invariant rest <= t.archive.Keys
      invariant Elements(retained) == t.archive.Keys - rest
      invariant Distinct(retained)
      decreases |rest|
    {
      var x := Take(rest);
      AppendElement(retained, x);
      retained := retained + [x];
      rest := rest - {x};
    }
    assert Elements(retained) == t.archive.Keys;
    retained := SortSlice(IntLess, retained);
  }

  /** investigationHeaderLocked */
  method Header(t: TrackerState, h: int) returns (result: BlockView)
    ensures result == HeaderOf(t, h)
  {
    var retained := ListHeights(t);
    hide RetainedHeights;
    result := BlockView(h, false, NotObserved, false, "", None, [], false, NO_COVERAGE, t.cfg.historySize, 0, 0,
      retained);
    if |retained| > 0 { result := result.(earliest := retained[0], latest := retained[|retained| - 1]); }
    if h !in t.archive {
      if h > 0 && h <= t.archiveEvictedThrough { result := result.(status := Evicted, truncated := true); }
      return;
    }
    var b := t.archive[h];
    result := result.(found := true, status := Live, committed := b.committed, canonicalHash := b.canonicalHash);
    if b.committed {
      result := result.(status := Committed);
    } else if h < t.archiveLatestHeight || h <= t.committedHeight {
      result := result.(status := Passed);
    }
    var coverage := CoverageView(None, b.roundsObserved, 0, b.roundsEvicted, |b.rounds| > 0);
    if b.roundsObserved > 0 {
      coverage := coverage.(firstLast := Some((b.firstRound, b.lastRound)),
        missing := b.lastRound - b.roundsObserved + 1);
    }
    result := result.(seen := Some((b.firstSeen, b.lastSeen)), coverage := coverage, truncated := b.roundsEvicted > 0);
  }

  ghost predicate SomeTruncated(b: ArchivedHeight, on: set<int>)
  {
    exists r :: r in on && r in b.rounds && b.rounds[r].truncated
  }

  ghost predicate AllComplete(b: ArchivedHeight, on: set<int>)
  {
    forall r ::
      r in on && r in b.rounds ==> b.rounds[r].roster != map[] && b.rounds[r].votes.Keys <= b.rounds[r].roster.Keys
  }

  /** The loop of Build over the rounds of one block. */
  method ListRounds(b: ArchivedHeight) returns (views: seq<RoundView>, truncated: bool, complete: bool)
    requires Filed(b)
    ensures Elements(views) == RoundViews(b, b.rounds.Keys)
    ensures Distinct(views)
    ensures truncated <==> b.roundsEvicted > 0 || SomeTruncated(b, b.rounds.Keys)
    ensures complete <==> |b.rounds| > 0 && AllComplete(b, b.rounds.Keys)
  {
    hide Elements, RoundViews, RowsOf, PhaseOf, Filed, Distinct;
    views, truncated, complete := [], b.roundsEvicted > 0, |b.rounds| > 0;
    NoViews(b);
    var rest := b.rounds.Keys;
    ghost var done := {};
    while rest != {}
      invariant rest + done == b.rounds.Keys && rest !! done
      invariant Elements(views) == RoundViews(b, done)
      invariant Distinct(views)
      invariant truncated <==> b.roundsEvicted > 0 || SomeTruncated(b, done)
      invariant complete <==> |b.rounds| > 0 && AllComplete(b, done)
      decreases |rest|
    {
      var r := Take(rest);
      var view := SnapshotRound(b.rounds[r], b.canonicalHash, b.committed);
      Visit(rest, done, b.rounds.Keys, r);
      AppendView(b, views, done, r);
      OneMoreRound(b, done, r);
      views := views + [view];
      truncated := truncated || view.truncated;
      complete := complete && view.rosterComplete;
      rest, done := rest - {r}, done + {r};
    }
    assert done == b.rounds.Keys;
  }

  lemma NoViews(b: ArchivedHeight)
    ensures Elements<RoundView>([]) == RoundViews(b, {}) && Distinct<RoundView>([])
  {
  }

  lemma OneMoreRound(b: ArchivedHeight, done: set<int>, r: int)
    requires r in b.rounds && r !in done
    ensures SomeTruncated(b, done + {r}) <==> SomeTruncated(b, done) || b.rounds[r].truncated
    ensures AllComplete(b, done + {r})
      <==> AllComplete(b, done) && b.rounds[r].roster != map[] && b.rounds[r].votes.Keys <= b.rounds[r].roster.Keys
  {
  }

  /** Build, on evidence captured from t. */
  method Build(t: TrackerState, h: int) returns (out: BlockView)
    requires h in t.archive ==> Filed(t.archive[h])
    ensures out == FullReport(t, h)
  {
    out := Header(t, h);
    if h !in t.archive { return; }
    var views, truncated, complete := ListRounds(t.archive[h]);
    RoundsOrdered(t.archive[h], t.archive[h].rounds.Keys);
    hide Elements, RoundViews, Orders, Ascending, RetainedHeights;
    views := SortSlice(RoundLess, views);
    out := out.(rounds := views, truncated := truncated, coverage := out.coverage.(rosterComplete := complete));
  }

  lemma AppendView(b: ArchivedHeight, views: seq<RoundView>, done: set<int>, r: int)
    requires Filed(b) && done <= b.rounds.Keys && r in b.rounds && r !in done && Elements(views) == RoundViews(b, done)
    ensures Elements(views + [RoundViewOf(b.rounds[r], b.canonicalHash, b.committed)]) == RoundViews(b, done + {r})
    ensures Distinct(views) ==> Distinct(views + [RoundViewOf(b.rounds[r], b.canonicalHash, b.committed)])
  {
    hide RowsOf, PhaseOf;
    var view := RoundViewOf(b.rounds[r], b.canonicalHash, b.committed);
    AppendElement(views, view);
    forall i | 0 <= i < |views| ensures views[i].round in done { assert views[i] in Elements(views); }
    forall x ensures x in Elements(views + [view]) <==> x in RoundViews(b, done + {r}) {
      assert x in Elements(views + [view]) <==> x in Elements(views) || x == view;
    }
  }
}
