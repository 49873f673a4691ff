/** Laws of the report: power is conserved per phase, groups list their holders, equal revisions give equal reports. */
module SnapshotLaws {
  import opened Common
  import opened TrackerTypes
  import opened Archive
  import opened Evidence
  import opened Tracker
  import opened TrackerRuns
  import opened Snapshot

  // ---------- who voted for what in a round ----------

  ghost function Voters(rd: ArchivedRound, kind: VoteType): set<string>
  {
    set a | a in rd.votes && rd.Vote(a, kind).Some?
  }

  ghost function Holders(rd: ArchivedRound, kind: VoteType, hash: string): set<string>
  {
    set a | a in rd.votes && hash in rd.Held(a, kind)
  }

  ghost function Conflicted(rd: ArchivedRound, kind: VoteType): set<string>
  {
    set a | a in Voters(rd, kind) && |rd.Held(a, kind)| >= 2
  }

  /** A voter's power once per hash it signed. */
  ghost function PowerPerHash(rd: ArchivedRound, kind: VoteType): string -> int
  {
    (a: string) => |rd.Held(a, kind)| * KnownPower(rd)(a)
  }

  /** A voter's power once per hash beyond the first. */
  ghost function ExtraPower(rd: ArchivedRound, kind: VoteType): string -> int
  {
    (a: string) => (|rd.Held(a, kind)| - 1) * KnownPower(rd)(a)
  }

  ghost function Powers(g: map<string, PhaseGroup>): string -> int { (h: string) => if h in g then g[h].power else 0 }

  /** xs is the ascending listing of s. */
  ghost predicate Lists(xs: seq<string>, s: set<string>) { Ascending(StrLess, xs) && Elements(xs) == s }

  lemma ListMore(xs: seq<string>, s: set<string>, a: string)
    requires Lists(xs, s) && forall x :: x in s ==> StrLess(x, a)
    ensures Lists(xs + [a], s + {a})
  {
    AppendElement(xs, a);
    assert forall i :: 0 <= i < |xs| ==> xs[i] in Elements(xs);
    hide StrLess;
  }

  lemma ListIsSorted(xs: seq<string>, s: set<string>)
    requires Lists(xs, s)
    ensures Orders(StrLess, s) && xs == SortSet(StrLess, s)
  {
    StrOrders(s);
    AscendingUnique(StrLess, xs, SortSet(StrLess, s));
  }

  lemma OnMore(on: set<string>, s: set<string>, a: string)
    requires a !in on
    ensures (on + {a}) * s == if a in s then on * s + {a} else on * s
    ensures (on + {a}) - s == if a in s then on - s else (on - s) + {a}
    ensures |(on + {a}) * s| == |on * s| + if a in s then 1 else 0
  {
  }

  lemma ListOnMore(xs: seq<string>, on: set<string>, s: set<string>, a: string)
    requires Lists(xs, on * s) && a !in on && forall x :: x in on ==> StrLess(x, a)
    ensures Lists(xs + if a in s then [a] else [], (on + {a}) * s)
  {
    OnMore(on, s, a);
    hide Lists, StrLess;
    if a in s { ListMore(xs, on * s, a); } else { assert xs + [] == xs; }
  }

  lemma SumOnMore(on: set<string>, s: set<string>, f: string -> int, a: string)
    requires a !in on
    ensures Sum((on + {a}) * s, f) == Sum(on * s, f) + if a in s then f(a) else 0
  {
    if a in s {
      assert (on + {a}) * s == on * s + {a};
      SumInsert(on * s, f, a);
    } else {
      assert (on + {a}) * s == on * s;
    }
  }

  // ---------- one row ----------

  ghost function HashSet(hashes: seq<HashSeen>): set<string> { PhaseVote(hashes, false, false).Hashes() }

  ghost predicate DistinctHashes(hashes: seq<HashSeen>)
  {
    forall i, j :: 0 <= i < j < |hashes| ==> hashes[i].hash != hashes[j].hash
  }

  lemma HashSetSnoc(hashes: seq<HashSeen>)
    requires hashes != [] && DistinctHashes(hashes)
    ensures HashSet(hashes) == HashSet(hashes[..|hashes| - 1]) + {hashes[|hashes| - 1].hash}
    ensures hashes[|hashes| - 1].hash !in HashSet(hashes[..|hashes| - 1]) && DistinctHashes(hashes[..|hashes| - 1])
  {
    var front, last := hashes[..|hashes| - 1], hashes[|hashes| - 1].hash;
    forall h ensures h in HashSet(hashes) <==> h in HashSet(front) + {last} {
      if h in HashSet(hashes) {
        var i :| 0 <= i < |hashes| && hashes[i].hash == h;
        if i < |front| { assert front[i].hash == h; }
      }
      if h in HashSet(front) {
        var i :| 0 <= i < |front| && front[i].hash == h;
        assert hashes[i].hash == h;
      }
      if h == last { assert hashes[|hashes| - 1].hash == h; }
    }
  }

  function GroupAt(g: map<string, PhaseGroup>, h: string, canonical: string, committed: bool): PhaseGroup
  {
    if h in g then g[h] else PhaseGroup(h, 0, [], committed && h != "" && canonical == h)
  }

  /** Each hash of the row gains the voter and its power; every other group is as before. */
  ghost predicate Credited(g: map<string, PhaseGroup>, g2: map<string, PhaseGroup>, on: set<string>, row: ValidatorView,
        canonical: string, committed: bool)
  {
    && g2.Keys == g.Keys + on
    && (forall h :: h in on ==> g2[h] == GroupAt(g, h, canonical, committed).(
          validators := GroupAt(g, h, canonical, committed).validators + [row.address],
            power := GroupAt(g, h, canonical, committed).power + row.Weight()))
    && (forall h :: h in g && h !in on ==> g2[h] == g[h])
  }

  lemma CreditSum(g: map<string, PhaseGroup>, h: string, row: ValidatorView, canonical: string, committed: bool)
    ensures var g2 := Credit(g, h, row, canonical, committed);
      Sum(g2.Keys, Powers(g2)) == Sum(g.Keys, Powers(g)) + row.Weight()
  {
    var g2 := Credit(g, h, row, canonical, committed);
    SumRemove(g2.Keys, Powers(g2), h);
    assert g2.Keys - {h} == g.Keys - {h};
    SumAgree(g.Keys - {h}, Powers(g2), Powers(g));
    if h in g {
      SumRemove(g.Keys, Powers(g), h);
    } else {
      assert g.Keys - {h} == g.Keys;
    }
  }

  lemma {:induction false} CreditAllEffect(g: map<string, PhaseGroup>, hashes: seq<HashSeen>, row: ValidatorView,
        canonical: string, committed: bool)
    requires DistinctHashes(hashes)
    ensures var g2 := CreditAll(g, hashes, row, canonical, committed);
      && Credited(g, g2, HashSet(hashes), row, canonical, committed)
      && Sum(g2.Keys, Powers(g2)) == Sum(g.Keys, Powers(g)) + |hashes| * row.Weight()
  {
    if hashes == [] {
      assert HashSet(hashes) == {};
    } else {
      var front, last := hashes[..|hashes| - 1], hashes[|hashes| - 1].hash;
      HashSetSnoc(hashes);
      CreditAllEffect(g, front, row, canonical, committed);
      var mid := CreditAll(g, front, row, canonical, committed);
      CreditSum(mid, last, row, canonical, committed);
      CreditedStep(g, mid, HashSet(front), last, row, canonical, committed);
      OnceMore(|hashes|, row.Weight());
    }
  }

  lemma OnceMore(n: int, w: int)
    ensures n * w == (n - 1) * w + w
  {
  }

  lemma CreditedStep(g: map<string, PhaseGroup>, mid: map<string, PhaseGroup>, on: set<string>, last: string,
        row: ValidatorView, canonical: string, committed: bool)
    requires Credited(g, mid, on, row, canonical, committed) && last !in on
    ensures Credited(g, Credit(mid, last, row, canonical, committed), on + {last}, row, canonical, committed)
  {
    var g2 := Credit(mid, last, row, canonical, committed);
    assert last in mid ==> mid[last] == g[last];
    assert g2.Keys == mid.Keys + {last};
  }

  // ---------- the fold over the rows ----------

  /** What the sums say after the rows of the addresses on. */
  ghost predicate SumsOk(rd: ArchivedRound, kind: VoteType, on: set<string>, s: PhaseSums)
  {
    SumsFor(Voters(rd, kind), Conflicted(rd, kind), KnownPower(rd), on, s)
  }

  ghost predicate SumsFor(voters: set<string>, split: set<string>, f: string -> int, on: set<string>, s: PhaseSums)
  {
    && s.observed == Sum(on * voters, f)
    && s.absent == Sum(on - voters, f)
    && s.count == |on * voters|
    && Lists(s.absentees, on - voters)
    && Lists(s.conflicting, on * split)
  }

  ghost predicate GroupOk(rd: ArchivedRound, kind: VoteType, on: set<string>, h: string, g: PhaseGroup,
        canonical: string, committed: bool)
  {
    && g.hash == h
    && Lists(g.validators, on * Holders(rd, kind, h))
    && g.power == Sum(on * Holders(rd, kind, h), KnownPower(rd))
    && g.isCanonical == (committed && h != "" && canonical == h)
  }

  ghost predicate GroupsOk(rd: ArchivedRound, kind: VoteType, on: set<string>, g: map<string, PhaseGroup>,
        canonical: string, committed: bool)
  {
    && (forall h :: h in g <==> on * Holders(rd, kind, h) != {})
    && (forall h :: h in g ==> GroupOk(rd, kind, on, h, g[h], canonical, committed))
    && Sum(g.Keys, Powers(g)) == Sum(on * Voters(rd, kind), PowerPerHash(rd, kind))
  }

  lemma RowFacts(r: int, rd: ArchivedRound, a: string, kind: VoteType)
    requires RoundOk(r, rd) && kind != OtherType
    ensures var vote := RowOf(rd, a).At(kind);
      && vote.observed == (a in Voters(rd, kind)) && DistinctHashes(vote.hashes)
      && HashSet(vote.hashes) == rd.Held(a, kind) && |vote.hashes| == |rd.Held(a, kind)|
      && (vote.observed ==> |vote.hashes| >= 1)
      && (vote.conflicting <==> a in Conflicted(rd, kind))
    ensures RowOf(rd, a).Weight() == KnownPower(rd)(a)
  {
    var vote := RowOf(rd, a).At(kind);
    assert vote == ViewOf(rd.Vote(a, kind));
    if rd.Vote(a, kind).Some? {
      assert VoteOk(rd.Vote(a, kind).value, rd.truncated);
      HashCount(vote.hashes);
      assert rd.Vote(a, kind).value.Hashes() == HashSet(vote.hashes);
    } else {
      assert HashSet([]) == {};
    }
  }

  /** A group that does not exist yet lists nobody. */
  lemma GroupBefore(rd: ArchivedRound, kind: VoteType, on: set<string>, h: string, g: map<string, PhaseGroup>,
        canonical: string, committed: bool)
    requires GroupsOk(rd, kind, on, g, canonical, committed)
    ensures GroupOk(rd, kind, on, h, GroupAt(g, h, canonical, committed), canonical, committed)
  {
    if h in g {
      hide GroupOk;
    } else {
      assert on * Holders(rd, kind, h) == {} && Lists([], {});
    }
  }

  lemma GroupMore(rd: ArchivedRound, kind: VoteType, on: set<string>, a: string, h: string, before: PhaseGroup,
        canonical: string, committed: bool)
    requires GroupOk(rd, kind, on, h, before, canonical, committed) && a in Holders(rd, kind, h)
    requires a !in on && (forall x :: x in on ==> StrLess(x, a))
    ensures GroupOk(rd, kind, on + {a}, h,
      before.(validators := before.validators + [a], power := before.power + KnownPower(rd)(a)), canonical, committed)
  {
    hide Holders, KnownPower, Sum, Lists, StrLess;
    SumOnMore(on, Holders(rd, kind, h), KnownPower(rd), a);
    ListOnMore(before.validators, on, Holders(rd, kind, h), a);
  }

  lemma GroupSame(rd: ArchivedRound, kind: VoteType, on: set<string>, a: string, h: string)
    requires h !in rd.Held(a, kind)
    ensures (on + {a}) * Holders(rd, kind, h) == on * Holders(rd, kind, h)
  {
  }

  lemma GroupsStep(r: int, rd: ArchivedRound, kind: VoteType, on: set<string>, a: string, g: map<string, PhaseGroup>,
        canonical: string, committed: bool)
    requires RoundOk(r, rd) && kind != OtherType && GroupsOk(rd, kind, on, g, canonical, committed)
    requires a in Voters(rd, kind) && a !in on && (forall x :: x in on ==> StrLess(x, a))
    ensures GroupsOk(rd, kind, on + {a}, CreditAll(g, RowOf(rd, a).At(kind).hashes, RowOf(rd, a), canonical, committed),
      canonical, committed)
  {
    var row := RowOf(rd, a);
    var held, g2 := rd.Held(a, kind), CreditAll(g, row.At(kind).hashes, row, canonical, committed);
    RowFacts(r, rd, a, kind);
    CreditAllEffect(g, row.At(kind).hashes, row, canonical, committed);
    assert row.address == a && a in rd.votes;
    GroupsSum(rd, kind, on, g, canonical, committed);
    GroupsSumMore(rd, kind, on, a, Sum(g2.Keys, Powers(g2)));
    hide RoundOk, RowOf, KnownPower, GroupOk, GroupsOk, CreditAll, Sum, PowerPerHash, Powers, Voters, StrLess;
    GroupKeys(rd, kind, on, a, g, g2, row, canonical, committed);
    hide Credited, Holders;
    forall h | h in g2 ensures GroupOk(rd, kind, on + {a}, h, g2[h], canonical, committed) {
      GroupNext(rd, kind, on, a, h, g, g2, row, canonical, committed);
    }
    GroupsIntro(rd, kind, on + {a}, g2, canonical, committed);
  }

  lemma GroupKeys(rd: ArchivedRound, kind: VoteType, on: set<string>, a: string, g: map<string, PhaseGroup>,
        g2: map<string, PhaseGroup>, row: ValidatorView, canonical: string, committed: bool)
    requires GroupsOk(rd, kind, on, g, canonical, committed)
      && Credited(g, g2, rd.Held(a, kind), row, canonical, committed)
    requires a in rd.votes && a !in on
    ensures forall h :: h in g2 <==> (on + {a}) * Holders(rd, kind, h) != {}
  {
    hide GroupOk;
    forall h ensures h in g2 <==> (on + {a}) * Holders(rd, kind, h) != {} { HolderMore(rd, kind, on, a, h); }
  }

  lemma GroupsSumMore(rd: ArchivedRound, kind: VoteType, on: set<string>, a: string, sum: int)
    requires a in Voters(rd, kind) && a !in on
    requires sum == Sum(on * Voters(rd, kind), PowerPerHash(rd, kind)) + |rd.Held(a, kind)| * KnownPower(rd)(a)
    ensures sum == Sum((on + {a}) * Voters(rd, kind), PowerPerHash(rd, kind))
  {
    SumOnMore(on, Voters(rd, kind), PowerPerHash(rd, kind), a);
  }

  lemma GroupsSum(rd: ArchivedRound, kind: VoteType, on: set<string>, g: map<string, PhaseGroup>, canonical: string,
        committed: bool)
    requires GroupsOk(rd, kind, on, g, canonical, committed)
    ensures Sum(g.Keys, Powers(g)) == Sum(on * Voters(rd, kind), PowerPerHash(rd, kind))
  {
  }

  lemma GroupsIntro(rd: ArchivedRound, kind: VoteType, on: set<string>, g: map<string, PhaseGroup>, canonical: string,
        committed: bool)
    requires forall h :: h in g <==> on * Holders(rd, kind, h) != {}
    requires forall h :: h in g ==> GroupOk(rd, kind, on, h, g[h], canonical, committed)
    requires Sum(g.Keys, Powers(g)) == Sum(on * Voters(rd, kind), PowerPerHash(rd, kind))
    ensures GroupsOk(rd, kind, on, g, canonical, committed)
  {
  }

  lemma HolderMore(rd: ArchivedRound, kind: VoteType, on: set<string>, a: string, h: string)
    requires a in rd.votes && a !in on
    ensures (on + {a}) * Holders(rd, kind, h) != {} <==> h in rd.Held(a, kind) || on * Holders(rd, kind, h) != {}
  {
    OnMore(on, Holders(rd, kind, h), a);
  }

  lemma GroupNext(rd: ArchivedRound, kind: VoteType, on: set<string>, a: string, h: string, g: map<string, PhaseGroup>,
        g2: map<string, PhaseGroup>, row: ValidatorView, canonical: string, committed: bool)
    requires GroupsOk(rd, kind, on, g, canonical, committed)
      && Credited(g, g2, rd.Held(a, kind), row, canonical, committed) && h in g2
    requires a in rd.votes && row.address == a && row.Weight() == KnownPower(rd)(a)
    requires a !in on && (forall x :: x in on ==> StrLess(x, a))
    ensures GroupOk(rd, kind, on + {a}, h, g2[h], canonical, committed)
  {
    if h in rd.Held(a, kind) {
      assert a in Holders(rd, kind, h);
      hide GroupOk, GroupsOk, KnownPower, Holders;
      GroupBefore(rd, kind, on, h, g, canonical, committed);
      GroupMore(rd, kind, on, a, h, GroupAt(g, h, canonical, committed), canonical, committed);
    } else {
      GroupSame(rd, kind, on, a, h);
      assert g2[h] == g[h] && GroupOk(rd, kind, on, h, g[h], canonical, committed);
      hide GroupsOk, Credited, Lists, Holders, KnownPower, StrLess;
    }
  }

  /** A row that did not vote changes no group. */
  lemma GroupsSkip(r: int, rd: ArchivedRound, kind: VoteType, on: set<string>, a: string, g: map<string, PhaseGroup>,
        canonical: string, committed: bool)
    requires RoundOk(r, rd) && kind != OtherType && GroupsOk(rd, kind, on, g, canonical, committed)
    requires a !in Voters(rd, kind) && a !in on
    ensures GroupsOk(rd, kind, on + {a}, g, canonical, committed)
  {
    assert rd.Held(a, kind) == {};
    assert forall h :: h in g <==> on * Holders(rd, kind, h) != {};
    GroupsSum(rd, kind, on, g, canonical, committed);
    OnMore(on, Voters(rd, kind), a);
    hide RoundOk, GroupOk, GroupsOk, Sum, Voters, Holders, KnownPower, PowerPerHash, Powers;
    forall h ensures (on + {a}) * Holders(rd, kind, h) == on * Holders(rd, kind, h) { GroupSame(rd, kind, on, a, h); }
    forall h | h in g ensures GroupOk(rd, kind, on + {a}, h, g[h], canonical, committed) {
      GroupKept(rd, kind, on, a, h, g, canonical, committed);
    }
    GroupsIntro(rd, kind, on + {a}, g, canonical, committed);
  }

  lemma GroupKept(rd: ArchivedRound, kind: VoteType, on: set<string>, a: string, h: string, g: map<string, PhaseGroup>,
        canonical: string, committed: bool)
    requires GroupsOk(rd, kind, on, g, canonical, committed) && h in g
      && (on + {a}) * Holders(rd, kind, h) == on * Holders(rd, kind, h)
    ensures GroupOk(rd, kind, on + {a}, h, g[h], canonical, committed)
  {
    assert GroupOk(rd, kind, on, h, g[h], canonical, committed);
    hide GroupsOk, Lists, Holders, KnownPower;
  }

  lemma SumsStep(r: int, rd: ArchivedRound, kind: VoteType, on: set<string>, a: string, s: PhaseSums, s2: PhaseSums)
    requires RoundOk(r, rd) && kind != OtherType && SumsOk(rd, kind, on, s)
    requires a !in on && (forall x :: x in on ==> StrLess(x, a))
    requires var row := RowOf(rd, a); var vote := row.At(kind);
      if vote.observed then
        s2.observed == s.observed + row.Weight() && s2.count == s.count + 1 && s2.absent == s.absent
          && s2.absentees == s.absentees
        && s2.conflicting == s.conflicting + if vote.conflicting then [a] else []
      else
        s2.observed == s.observed && s2.count == s.count && s2.absent == s.absent + row.Weight()
          && s2.absentees == s.absentees + [a]
        && s2.conflicting == s.conflicting
    ensures SumsOk(rd, kind, on + {a}, s2)
  {
    RowFacts(r, rd, a, kind);
    ConflictedVote(rd, kind, a);
    assert RowOf(rd, a).Weight() == KnownPower(rd)(a);
    hide RoundOk, RowOf, KnownPower, Voters, Conflicted, SumsFor, StrLess;
    if a in Voters(rd, kind) {
      VotedSums(Voters(rd, kind), Conflicted(rd, kind), KnownPower(rd), on, a, s, s2);
    } else {
      AbsentSums(Voters(rd, kind), Conflicted(rd, kind), KnownPower(rd), on, a, s, s2);
    }
  }

  lemma VotedSums(voters: set<string>, split: set<string>, f: string -> int, on: set<string>, a: string, s: PhaseSums,
        s2: PhaseSums)
    requires SumsFor(voters, split, f, on, s) && a in voters && a !in on && forall x :: x in on ==> StrLess(x, a)
    requires s2.observed == s.observed + f(a) && s2.count == s.count + 1 && s2.absent == s.absent
      && s2.absentees == s.absentees
    requires s2.conflicting == s.conflicting + if a in split then [a] else []
    ensures SumsFor(voters, split, f, on + {a}, s2)
  {
    SumOnMore(on, voters, f, a);
    OnMore(on, voters, a);
    hide Lists, StrLess, Sum;
    ListOnMore(s.conflicting, on, split, a);
  }

  lemma AbsentSums(voters: set<string>, split: set<string>, f: string -> int, on: set<string>, a: string, s: PhaseSums,
        s2: PhaseSums)
    requires SumsFor(voters, split, f, on, s) && a !in voters && a !in split && a !in on
      && forall x :: x in on ==> StrLess(x, a)
    requires s2.observed == s.observed && s2.count == s.count && s2.absent == s.absent + f(a)
      && s2.absentees == s.absentees + [a]
    requires s2.conflicting == s.conflicting
    ensures SumsFor(voters, split, f, on + {a}, s2)
  {
    OnMore(on, voters, a);
    OnMore(on, split, a);
    SumInsert(on - voters, f, a);
    hide Lists, StrLess, Sum;
    ListMore(s.absentees, on - voters, a);
  }

  lemma ConflictedVote(rd: ArchivedRound, kind: VoteType, a: string)
    ensures a in Conflicted(rd, kind) ==> a in Voters(rd, kind)
  {
  }

  ghost function AddressSet(rows: seq<ValidatorView>): set<string> { set i | 0 <= i < |rows| :: rows[i].address }

  ghost predicate RowsFrom(rd: ArchivedRound, rows: seq<ValidatorView>)
  {
    Ascending(RowLess, rows) && forall i :: 0 <= i < |rows| ==> rows[i] == RowOf(rd, rows[i].address)
  }

  lemma FrontRows(rd: ArchivedRound, rows: seq<ValidatorView>)
    requires RowsFrom(rd, rows) && rows != []
    ensures RowsFrom(rd, rows[..|rows| - 1])
    ensures forall i :: 0 <= i < |rows| - 1 ==> StrLess(rows[i].address, rows[|rows| - 1].address)
  {
    forall i | 0 <= i < |rows| - 1 ensures StrLess(rows[i].address, rows[|rows| - 1].address) {
      assert RowLess(rows[i], rows[|rows| - 1]);
    }
  }

  lemma AddressesOfFront(rows: seq<ValidatorView>)
    requires rows != []
    ensures AddressSet(rows) == AddressSet(rows[..|rows| - 1]) + {rows[|rows| - 1].address}
  {
    var front, a := rows[..|rows| - 1], rows[|rows| - 1].address;
    forall x ensures x in AddressSet(rows) <==> x in AddressSet(front) + {a} {
      if x in AddressSet(rows) {
        var i :| 0 <= i < |rows| && rows[i].address == x;
        if i < |front| { assert front[i].address == x; }
      }
      if x in AddressSet(front) {
        var i :| 0 <= i < |front| && front[i].address == x;
        assert rows[i].address == x;
      }
      if x == a { assert rows[|rows| - 1].address == x; }
    }
  }

  lemma FrontIsBefore(rd: ArchivedRound, rows: seq<ValidatorView>)
    requires RowsFrom(rd, rows) && rows != []
    ensures var front, a := rows[..|rows| - 1], rows[|rows| - 1].address;
      RowsFrom(rd, front) && a !in AddressSet(front) && forall x :: x in AddressSet(front) ==> StrLess(x, a)
  {
    FrontRows(rd, rows);
    var front, a := rows[..|rows| - 1], rows[|rows| - 1].address;
    hide RowsFrom, RowLess, StrLess, RowOf;
    assert forall i :: 0 <= i < |front| ==> front[i] == rows[i];
    StrLessAsym(a, a);
  }

  lemma AddressSnoc(rd: ArchivedRound, rows: seq<ValidatorView>)
    requires RowsFrom(rd, rows) && rows != []
    ensures var front, a := rows[..|rows| - 1], rows[|rows| - 1].address;
      && RowsFrom(rd, front) && AddressSet(rows) == AddressSet(front) + {a} && a !in AddressSet(front)
      && forall x :: x in AddressSet(front) ==> StrLess(x, a)
  {
    hide *;
    AddressesOfFront(rows);
    FrontIsBefore(rd, rows);
  }

  lemma NothingSummed(rd: ArchivedRound, kind: VoteType, canonical: string, committed: bool)
    ensures SumsOk(rd, kind, {}, PhaseSums(map[], 0, 0, 0, [], []))
    ensures GroupsOk(rd, kind, {}, map[], canonical, committed)
  {
    var none: set<string> := {};
    assert forall s: set<string> :: none * s == none && none - s == none;
  }

  lemma {:induction false} SumPhaseFacts(r: int, rd: ArchivedRound, rows: seq<ValidatorView>, kind: VoteType,
        canonical: string, committed: bool)
    requires RoundOk(r, rd) && kind != OtherType && RowsFrom(rd, rows)
    ensures SumsOk(rd, kind, AddressSet(rows), SumPhase(rows, kind, canonical, committed))
    ensures GroupsOk(rd, kind, AddressSet(rows), SumPhase(rows, kind, canonical, committed).groups, canonical,
      committed)
  {
    hide RoundOk, SumsOk, GroupsOk, RowOf, CreditAll;
    if rows == [] {
      NothingSummed(rd, kind, canonical, committed);
      assert AddressSet(rows) == {};
    } else {
      var front, a := rows[..|rows| - 1], rows[|rows| - 1].address;
      AddressSnoc(rd, rows);
      SumPhaseFacts(r, rd, front, kind, canonical, committed);
      var s, s2 := SumPhase(front, kind, canonical, committed), SumPhase(rows, kind, canonical, committed);
      assert rows[|rows| - 1] == RowOf(rd, a);
      hide RowsFrom, AddressSet;
      SumsStep(r, rd, kind, AddressSet(front), a, s, s2) by { assert RowOf(rd, a).address == a; }
      RowFacts(r, rd, a, kind);
      if a in Voters(rd, kind) {
        GroupsStep(r, rd, kind, AddressSet(front), a, s.groups, canonical, committed);
      } else {
        GroupsSkip(r, rd, kind, AddressSet(front), a, s.groups, canonical, committed);
      }
    }
  }

  lemma RowsOfFacts(rd: ArchivedRound)
    ensures RowsFrom(rd, RowsOf(rd)) && AddressSet(RowsOf(rd)) == Addresses(rd)
  {
    RowsOrdered(rd, Addresses(rd));
    var rows := RowsOf(rd);
    assert Elements(rows) == RowSet(rd, Addresses(rd));
    forall i | 0 <= i < |rows| ensures rows[i] == RowOf(rd, rows[i].address) && rows[i].address in Addresses(rd) {
      assert rows[i] in Elements(rows);
    }
    forall a | a in Addresses(rd) ensures a in AddressSet(rows) {
      assert RowOf(rd, a) in Elements(rows);
      var i :| 0 <= i < |rows| && rows[i] == RowOf(rd, a);
      assert rows[i].address == a;
    }
  }

  // ---------- the laws of one phase ----------

  lemma VotersHaveAddresses(rd: ArchivedRound, kind: VoteType)
    ensures Addresses(rd) * Voters(rd, kind) == Voters(rd, kind)
    ensures Addresses(rd) * Conflicted(rd, kind) == Conflicted(rd, kind)
    ensures forall h :: Addresses(rd) * Holders(rd, kind, h) == Holders(rd, kind, h)
  {
  }

  lemma PhaseFacts(r: int, rd: ArchivedRound, kind: VoteType, canonical: string, committed: bool)
    requires RoundOk(r, rd) && kind != OtherType
    ensures var s := SumPhase(RowsOf(rd), kind, canonical, committed);
      SumsOk(rd, kind, Addresses(rd), s) && GroupsOk(rd, kind, Addresses(rd), s.groups, canonical, committed)
    ensures Addresses(rd) * Voters(rd, kind) == Voters(rd, kind)
    ensures Addresses(rd) * Conflicted(rd, kind) == Conflicted(rd, kind)
    ensures forall h :: Addresses(rd) * Holders(rd, kind, h) == Holders(rd, kind, h)
  {
    hide *;
    RowsOfFacts(rd);
    VotersHaveAddresses(rd, kind);
    SumPhaseFacts(r, rd, RowsOf(rd), kind, canonical, committed);
  }

  lemma Divide(all: set<string>, s: set<string>, f: string -> int)
    ensures Sum(all, f) == Sum(all * s, f) + Sum(all - s, f)
  {
    SumUnion(all * s, all - s, f);
    assert all * s + (all - s) == all;
  }

  /** Observed and not-observed power add up to the round's total voting power. */
  lemma PhasePowerIsTotal(r: int, rd: ArchivedRound, kind: VoteType, canonical: string, committed: bool)
    requires RoundOk(r, rd) && kind != OtherType
    ensures var p := PhaseOf(RowsOf(rd), kind, canonical, committed);
      && p.observedPower + p.notObservedPower == RoundViewOf(rd, canonical, committed).totalPower
      && p.observedPower == Sum(Voters(rd, kind), KnownPower(rd)) && p.observedCount == |Voters(rd, kind)|
  {
    PhaseFacts(r, rd, kind, canonical, committed);
    hide RoundOk, RowsOf, KnownPower, SumPhase, GroupsOk, Lists, Voters, Conflicted, Holders, Addresses, Sum;
    Divide(Addresses(rd), Voters(rd, kind), KnownPower(rd));
  }

  lemma HeldOnce(r: int, rd: ArchivedRound, kind: VoteType, a: string)
    requires RoundOk(r, rd) && kind != OtherType && a in Voters(rd, kind)
    ensures PowerPerHash(rd, kind)(a) == KnownPower(rd)(a) + ExtraPower(rd, kind)(a)
    ensures a !in Conflicted(rd, kind) ==> ExtraPower(rd, kind)(a) == 0
  {
    RowFacts(r, rd, a, kind);
    var n, w := |rd.Held(a, kind)|, KnownPower(rd)(a);
    OnceMore(n, w);
    if a !in Conflicted(rd, kind) { assert n == 1; }
  }

  /** Group powers add up to the observed power plus, for each conflicting voter, its power once per further hash. */
  lemma GroupPowerIsObservedPlusConflicts(r: int, rd: ArchivedRound, kind: VoteType, canonical: string, committed: bool)
    requires RoundOk(r, rd) && kind != OtherType
    ensures var s := SumPhase(RowsOf(rd), kind, canonical, committed);
      Sum(s.groups.Keys, Powers(s.groups)) == s.observed + Sum(Conflicted(rd, kind), ExtraPower(rd, kind))
  {
    PhaseFacts(r, rd, kind, canonical, committed);
    var s := SumPhase(RowsOf(rd), kind, canonical, committed);
    GroupsSum(rd, kind, Addresses(rd), s.groups, canonical, committed);
    assert s.observed == Sum(Addresses(rd) * Voters(rd, kind), KnownPower(rd));
    hide *;
    PowerPerHashSplits(r, rd, kind);
  }

  lemma PowerPerHashSplits(r: int, rd: ArchivedRound, kind: VoteType)
    requires RoundOk(r, rd) && kind != OtherType
    ensures Sum(Voters(rd, kind), PowerPerHash(rd, kind))
      == Sum(Voters(rd, kind), KnownPower(rd)) + Sum(Conflicted(rd, kind), ExtraPower(rd, kind))
  {
    var voters, split := Voters(rd, kind), Conflicted(rd, kind);
    assert voters * split == split;
    forall a | a in voters
      ensures PowerPerHash(rd, kind)(a) == KnownPower(rd)(a) + ExtraPower(rd, kind)(a)
        && (a !in split ==> ExtraPower(rd, kind)(a) == 0)
    {
      HeldOnce(r, rd, kind, a);
    }
    hide *;
    SumPlus(voters, KnownPower(rd), ExtraPower(rd, kind), PowerPerHash(rd, kind));
    Divide(voters, split, ExtraPower(rd, kind));
    SumZero(voters - split, ExtraPower(rd, kind));
  }

  /** The listed group of a hash names exactly its holders, in address order, with their summed power. */
  lemma GroupsListTheirHolders(r: int, rd: ArchivedRound, kind: VoteType, canonical: string, committed: bool,
        g: PhaseGroup)
    requires RoundOk(r, rd) && kind != OtherType
    requires g in PhaseOf(RowsOf(rd), kind, canonical, committed).groups
    ensures Orders(StrLess, Holders(rd, kind, g.hash)) && g.validators == SortSet(StrLess, Holders(rd, kind, g.hash))
    ensures g.validators != [] && g.power == Sum(Holders(rd, kind, g.hash), KnownPower(rd))
    ensures g.isCanonical <==> committed && g.hash != "" && g.hash == canonical
  {
    PhaseFacts(r, rd, kind, canonical, committed);
    var s := SumPhase(RowsOf(rd), kind, canonical, committed);
    ListedGroup(RowsOf(rd), kind, canonical, committed, g);
    hide RoundOk, RowsOf, KnownPower, SumPhase, PhaseOf, Holders;
    assert GroupOk(rd, kind, Addresses(rd), g.hash, s.groups[g.hash], canonical, committed);
    ListIsSorted(g.validators, Holders(rd, kind, g.hash));
  }

  lemma ListedGroup(rows: seq<ValidatorView>, kind: VoteType, canonical: string, committed: bool, g: PhaseGroup)
    ensures var groups := SumPhase(rows, kind, canonical, committed).groups;
      g in PhaseOf(rows, kind, canonical, committed).groups <==> g.hash in groups && groups[g.hash] == g
  {
    SumPhaseNamed(rows, kind, canonical, committed);
    var groups := SumPhase(rows, kind, canonical, committed).groups;
    GroupsOrdered(groups);
    hide SumPhase, GroupLess;
    var listed := SortSet(GroupLess, GroupSet(groups));
    assert g in listed <==> g in Elements(listed);
  }

  /** Every hash anyone signed has a group. */
  lemma EveryHashHasAGroup(r: int, rd: ArchivedRound, kind: VoteType, canonical: string, committed: bool, a: string,
        hash: string)
    requires RoundOk(r, rd) && kind != OtherType && hash in rd.Held(a, kind)
    ensures exists g ::
      g in PhaseOf(RowsOf(rd), kind, canonical, committed).groups && g.hash == hash && a in g.validators
  {
    PhaseFacts(r, rd, kind, canonical, committed);
    var groups := SumPhase(RowsOf(rd), kind, canonical, committed).groups;
    assert a in Holders(rd, kind, hash);
    hide RoundOk, RowsOf, KnownPower, SumPhase, PhaseOf;
    assert hash in groups;
    assert GroupOk(rd, kind, Addresses(rd), hash, groups[hash], canonical, committed);
    ListedGroup(RowsOf(rd), kind, canonical, committed, groups[hash]);
    assert a in Elements(groups[hash].validators);
  }

  /** The absent and the conflicting voters are listed exactly, in address order. */
  lemma AbsentAndConflictingAreListed(r: int, rd: ArchivedRound, kind: VoteType, canonical: string, committed: bool)
    requires RoundOk(r, rd) && kind != OtherType
    ensures var p := PhaseOf(RowsOf(rd), kind, canonical, committed);
      && Orders(StrLess, Addresses(rd) - Voters(rd, kind))
        && p.notObserved == SortSet(StrLess, Addresses(rd) - Voters(rd, kind))
      && Orders(StrLess, Conflicted(rd, kind)) && p.conflicting == SortSet(StrLess, Conflicted(rd, kind))
  {
    PhaseFacts(r, rd, kind, canonical, committed);
    hide RoundOk, RowsOf, KnownPower, SumPhase, Voters, Conflicted, Lists, Addresses;
    var s := SumPhase(RowsOf(rd), kind, canonical, committed);
    ListIsSorted(s.absentees, Addresses(rd) - Voters(rd, kind));
    ListIsSorted(s.conflicting, Conflicted(rd, kind));
  }

  // ---------- revisions and reports ----------

  /** The evidence revision of a height: 0 when it is not retained. */
  function EvidenceOf(t: TrackerState, h: int): int { if h in t.archive then t.archive[h].revision else 0 }

  lemma ArchiveIsFiled(t: TrackerState, h: int)
    requires ArchiveOk(t) && h in t.archive
    ensures Filed(t.archive[h]) && t.archive[h].revision >= 1
  {
    BlockAt(t, h);
  }

  lemma EqualRevisionsMean(t: TrackerState, u: TrackerState, h: int)
    requires ArchiveOk(t) && Later(t, u)
    requires EvidenceOf(t, h) == EvidenceOf(u, h)
    ensures h in t.archive <==> h in u.archive
    ensures h in t.archive ==> t.archive[h] == u.archive[h]
  {
    if h in t.archive { ArchiveIsFiled(t, h); }
    if h in u.archive { ArchiveIsFiled(u, h); }
    hide ArchiveOk, Ages, CatalogueHonest;
  }

  lemma SameCatalogueSameHeader(t: TrackerState, u: TrackerState, h: int)
    requires t.catalogueRevision == u.catalogueRevision && CatalogueHonest(t, u) && t.cfg == u.cfg
    requires (h in t.archive <==> h in u.archive) && (h in t.archive ==> t.archive[h] == u.archive[h])
    ensures HeaderOf(t, h) == HeaderOf(u, h)
  {
    SameHeightsRetained(t, u);
    hide RetainedHeights;
  }

  lemma SameHeightsRetained(t: TrackerState, u: TrackerState)
    requires u.archive.Keys == t.archive.Keys
    ensures RetainedHeights(t) == RetainedHeights(u)
  {
    hide SortSet;
  }

  lemma LaterCatalogue(t: TrackerState, u: TrackerState)
    requires Later(t, u)
    ensures CatalogueHonest(t, u) && t.cfg == u.cfg
  {
    hide ArchiveOk, CatalogueHonest, EvidenceHonest;
  }

  /** At two moments of one run, equal evidence and catalogue revisions of a height mean equal full reports. */
  lemma EqualRevisionsEqualReports(cfg: Config, run: seq<Timed>, more: seq<Timed>, h: int)
    requires EvidenceOf(Run(cfg, run), h) == EvidenceOf(Run(cfg, run + more), h)
    requires Run(cfg, run).catalogueRevision == Run(cfg, run + more).catalogueRevision
    ensures var t, u := Run(cfg, run), Run(cfg, run + more);
      && (h in t.archive ==> Filed(t.archive[h])) && (h in u.archive ==> Filed(u.archive[h]))
      && FullReport(t, h) == FullReport(u, h)
  {
    var t, u := Run(cfg, run), Run(cfg, run + more);
    hide Run, ArchiveOk, Later, CatalogueHonest, HeaderOf;
    PrefixIsLater(cfg, run, more);
    RunOk(cfg, run + more);
    EqualRevisionsMean(t, u, h);
    if h in t.archive { ArchiveIsFiled(t, h); }
    LaterCatalogue(t, u);
    SameCatalogueSameHeader(t, u, h);
  }
}
