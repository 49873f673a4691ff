/** The laws of one phase, for every round of every report of a reachable tracker. */
module ReportLaws {
  import opened Common
  import opened TrackerTypes
  import opened Archive
  import opened Tracker
  import opened TrackerRuns
  import opened Snapshot
  import opened SnapshotLaws

  function PhaseIn(view: RoundView, kind: VoteType): PhaseView
  {
    if kind == Precommit then view.precommits else view.prevotes
  }

  /** What the groups of a phase add up to, as they are listed. */
  function GroupTotal(groups: seq<PhaseGroup>): int
  {
    if groups == [] then 0 else GroupTotal(groups[..|groups| - 1]) + groups[|groups| - 1].power
  }

  ghost function GroupsOn(g: map<string, PhaseGroup>, on: set<string>): set<PhaseGroup>
  {
    set h | h in on && h in g :: g[h]
  }

  lemma LastGroup(g: map<string, PhaseGroup>, on: set<string>, xs: seq<PhaseGroup>)
    requires Named(g) && on <= g.Keys && Distinct(xs) && Elements(xs) == GroupsOn(g, on) && xs != []
    ensures var h := xs[|xs| - 1].hash;
      h in on && g[h] == xs[|xs| - 1] && Elements(xs[..|xs| - 1]) == GroupsOn(g, on - {h}) && Distinct(xs[..|xs| - 1])
  {
    var front, last := xs[..|xs| - 1], xs[|xs| - 1];
    assert last in Elements(xs);
    forall x ensures x in Elements(front) <==> x in GroupsOn(g, on - {last.hash}) {
      if x in front {
        assert x in Elements(xs);
        var i :| 0 <= i < |front| && front[i] == x;
        assert xs[i] != last;
      }
      if x in GroupsOn(g, on - {last.hash}) {
        assert x in Elements(xs);
        var i :| 0 <= i < |xs| && xs[i] == x;
        assert front[i] == x;
      }
    }
  }

  lemma EmptyListing(g: map<string, PhaseGroup>, on: set<string>)
    requires on <= g.Keys
    ensures GroupsOn(g, on) == {} ==> on == {}
  {
    if on != {} {
      var h := Pick(on);
      assert g[h] in GroupsOn(g, on);
    }
  }

  lemma {:induction false} ListedTotal(g: map<string, PhaseGroup>, on: set<string>, xs: seq<PhaseGroup>)
    requires Named(g) && on <= g.Keys && Distinct(xs) && Elements(xs) == GroupsOn(g, on)
    ensures GroupTotal(xs) == Sum(on, Powers(g))
    decreases |xs|
  {
    if xs == [] {
      EmptyListing(g, on);
    } else {
      LastGroup(g, on, xs);
      var h := xs[|xs| - 1].hash;
      ListedTotal(g, on - {h}, xs[..|xs| - 1]);
      SumRemove(on, Powers(g), h);
    }
  }

  lemma AscendingIsDistinct(s: set<PhaseGroup>, xs: seq<PhaseGroup>)
    requires Orders(GroupLess, s) && Elements(xs) == s && Ascending(GroupLess, xs)
    ensures Distinct(xs)
  {
    hide GroupLess;
    forall i, j | 0 <= i < j < |xs| ensures xs[i] != xs[j] { assert xs[i] in s && xs[j] in s; }
  }

  lemma PhaseTotal(rows: seq<ValidatorView>, kind: VoteType, canonical: string, committed: bool)
    ensures var groups := SumPhase(rows, kind, canonical, committed).groups;
      GroupTotal(PhaseOf(rows, kind, canonical, committed).groups) == Sum(groups.Keys, Powers(groups))
  {
    SumPhaseNamed(rows, kind, canonical, committed);
    var groups := SumPhase(rows, kind, canonical, committed).groups;
    GroupsOrdered(groups);
    var listed := SortSet(GroupLess, GroupSet(groups));
    assert PhaseOf(rows, kind, canonical, committed).groups == listed;
    hide SumPhase, Orders, Powers, GroupLess;
    AscendingIsDistinct(GroupSet(groups), listed);
    assert GroupsOn(groups, groups.Keys) == GroupSet(groups);
    ListedTotal(groups, groups.Keys, listed);
  }

  lemma RetainedRoundIsOk(cfg: Config, run: seq<Timed>, h: int, r: int)
    requires Run(cfg, run).Retained(h, r)
    ensures RoundOk(r, Run(cfg, run).archive[h].rounds[r]) && Filed(Run(cfg, run).archive[h])
  {
    RunOk(cfg, run);
    BlockAt(Run(cfg, run), h);
    ArchiveIsFiled(Run(cfg, run), h);
    hide Run, After, ArchiveOk, RoundOk;
  }

  /** The round of a block as its report shows it. */
  ghost function ShownRound(b: ArchivedHeight, r: int): RoundView
    requires r in b.rounds
  {
    RoundViewOf(b.rounds[r], b.canonicalHash, b.committed)
  }

  lemma RoundIsShown(t: TrackerState, h: int, r: int)
    requires t.Retained(h, r) && Filed(t.archive[h])
    ensures ShownRound(t.archive[h], r) in FullReport(t, h).rounds
  {
    var b := t.archive[h];
    RoundsOrdered(b, b.rounds.Keys);
    assert FullReport(t, h).rounds == SortSet(RoundLess, RoundViews(b, b.rounds.Keys)) by { hide HeaderOf, RoundViews; }
    hide FullReport, HeaderOf, RoundViewOf, Orders;
    assert ShownRound(b, r) in RoundViews(b, b.rounds.Keys);
    assert forall x :: x in Elements(FullReport(t, h).rounds) ==> x in FullReport(t, h).rounds;
  }

  lemma ShownPhase(b: ArchivedHeight, r: int, kind: VoteType)
    requires r in b.rounds && kind != OtherType
    ensures PhaseIn(ShownRound(b, r), kind) == PhaseOf(RowsOf(b.rounds[r]), kind, b.canonicalHash, b.committed)
  {
    hide PhaseOf, RowsOf;
  }

  /**
   In every report of a reachable tracker, for each retained round and phase: observed and not-observed power add up to
   the round's total, and the listed groups add up to the observed power plus, for each conflicting voter, its power
   once per further hash.
   */
  lemma ReportConservesPower(cfg: Config, run: seq<Timed>, h: int, r: int, kind: VoteType)
    requires Run(cfg, run).Retained(h, r) && kind != OtherType
    ensures Filed(Run(cfg, run).archive[h])
    ensures var b := Run(cfg, run).archive[h];
      var view, rd := ShownRound(b, r), b.rounds[r];
      && view in FullReport(Run(cfg, run), h).rounds
      && PhaseIn(view, kind).observedPower + PhaseIn(view, kind).notObservedPower == view.totalPower
      && GroupTotal(PhaseIn(view, kind).groups)
        == PhaseIn(view, kind).observedPower + Sum(Conflicted(rd, kind), ExtraPower(rd, kind))
  {
    RetainedRoundIsOk(cfg, run, h, r);
    RoundIsShown(Run(cfg, run), h, r);
    hide *;
    PhaseConserves(r, Run(cfg, run).archive[h], kind);
  }

  lemma PhaseConserves(r: int, b: ArchivedHeight, kind: VoteType)
    requires r in b.rounds && RoundOk(r, b.rounds[r]) && kind != OtherType
    ensures var view, rd := ShownRound(b, r), b.rounds[r];
      && PhaseIn(view, kind).observedPower + PhaseIn(view, kind).notObservedPower == view.totalPower
      && GroupTotal(PhaseIn(view, kind).groups)
        == PhaseIn(view, kind).observedPower + Sum(Conflicted(rd, kind), ExtraPower(rd, kind))
  {
    var rd := b.rounds[r];
    assert PhaseOf(RowsOf(rd), kind, b.canonicalHash, b.committed).observedPower
      == SumPhase(RowsOf(rd), kind, b.canonicalHash, b.committed).observed by { hide SumPhase, RowsOf; }
    hide RoundOk, PhaseOf, SumPhase, RowsOf, Conflicted, ExtraPower, PhaseIn, Sum, Powers, KnownPower, GroupTotal;
    PhasePowerIsTotal(r, rd, kind, b.canonicalHash, b.committed);
    GroupPowerIsObservedPlusConflicts(r, rd, kind, b.canonicalHash, b.committed);
    PhaseTotal(RowsOf(rd), kind, b.canonicalHash, b.committed);
    ShownPhase(b, r, kind);
  }

  /**
   In every report of a reachable tracker each listed group names exactly the holders of its hash with their summed
   power, every signed hash has a group, and the absent and the conflicting are listed exactly, all in address order.
   */
  lemma ReportListsVoters(cfg: Config, run: seq<Timed>, h: int, r: int, kind: VoteType)
    requires Run(cfg, run).Retained(h, r) && kind != OtherType
    ensures var b := Run(cfg, run).archive[h]; var rd, p := b.rounds[r], PhaseIn(ShownRound(b, r), kind);
      && (forall g :: g in p.groups ==> ListsHolders(rd, kind, g, b.canonicalHash, b.committed))
      && (forall a, hash ::
        hash in rd.Held(a, kind) ==> exists g :: g in p.groups && g.hash == hash && a in g.validators)
      && Lists(p.notObserved, Addresses(rd) - Voters(rd, kind)) && Lists(p.conflicting, Conflicted(rd, kind))
  {
    var b := Run(cfg, run).archive[h];
    var rd := b.rounds[r];
    RetainedRoundIsOk(cfg, run, h, r);
    ShownPhase(b, r, kind);
    hide *;
    forall g | g in PhaseOf(RowsOf(rd), kind, b.canonicalHash, b.committed).groups
      ensures ListsHolders(rd, kind, g, b.canonicalHash, b.committed)
    {
      GroupListsHolders(r, rd, kind, g, b.canonicalHash, b.committed);
    }
    forall a, hash | hash in rd.Held(a, kind)
      ensures exists g ::
        g in PhaseOf(RowsOf(rd), kind, b.canonicalHash, b.committed).groups && g.hash == hash && a in g.validators
    {
      EveryHashHasAGroup(r, rd, kind, b.canonicalHash, b.committed, a, hash);
    }
    AbsentAreListed(r, rd, kind, b.canonicalHash, b.committed);
  }

  ghost predicate ListsHolders(rd: ArchivedRound, kind: VoteType, g: PhaseGroup, canonical: string, committed: bool)
  {
    && Lists(g.validators, Holders(rd, kind, g.hash)) && g.validators != []
    && g.power == Sum(Holders(rd, kind, g.hash), KnownPower(rd))
    && (g.isCanonical <==> committed && g.hash != "" && g.hash == canonical)
  }

  lemma GroupListsHolders(r: int, rd: ArchivedRound, kind: VoteType, g: PhaseGroup, canonical: string, committed: bool)
    requires RoundOk(r, rd) && kind != OtherType && g in PhaseOf(RowsOf(rd), kind, canonical, committed).groups
    ensures ListsHolders(rd, kind, g, canonical, committed)
  {
    GroupsListTheirHolders(r, rd, kind, canonical, committed, g);
    hide RoundOk, RowsOf, PhaseOf, Holders, Orders, StrLess, KnownPower;
  }

  lemma AbsentAreListed(r: int, rd: ArchivedRound, kind: VoteType, canonical: string, committed: bool)
    requires RoundOk(r, rd) && kind != OtherType
    ensures var p := PhaseOf(RowsOf(rd), kind, canonical, committed);
      Lists(p.notObserved, Addresses(rd) - Voters(rd, kind)) && Lists(p.conflicting, Conflicted(rd, kind))
  {
    AbsentAndConflictingAreListed(r, rd, kind, canonical, committed);
    hide RoundOk, RowsOf, PhaseOf, Orders, StrLess, Voters, Conflicted, Addresses;
  }
}
