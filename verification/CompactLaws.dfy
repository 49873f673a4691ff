/** What a compact report selects, details and sums up, in terms of the rounds the full report shows. */
module CompactLaws {
  import opened Common
  import opened TrackerTypes
  import opened Archive
  import opened Tracker
  import opened TrackerRuns
  import opened Snapshot
  import opened SnapshotLaws
  import opened RoundsCache
  import opened CacheViews
  import opened Decimal
  import Coverage

  // ---------- any report with its rounds in order ----------

  ghost predicate InOrder(rounds: seq<RoundView>)
  {
    forall i, j :: 0 <= i < j < |rounds| ==> rounds[i].round < rounds[j].round
  }

  ghost predicate Shows(rounds: seq<RoundView>, n: int) { exists i :: 0 <= i < |rounds| && rounds[i].round == n }

  ghost predicate ShowsUpTo(rounds: seq<RoundView>, n: int)
  {
    Shows(rounds, n) && forall i :: 0 <= i < |rounds| ==> rounds[i].round <= n
  }

  lemma IndexShows(rounds: seq<RoundView>, n: int)
    ensures RoundIndex(rounds, n) < |rounds| <==> Shows(rounds, n)
  {
  }

  lemma PickShows(r: BlockView, n: int)
    ensures PickRound(r, n) == Available <==> Shows(r.rounds, n)
    ensures PickRound(r, n) != NoComparison
  {
    IndexShows(r.rounds, n);
  }

  /** The rounds of details are those asked for that are shown, the first one in front, none twice. */
  ghost predicate Details(rounds: seq<RoundView>, details: seq<RoundView>, first: Option<int>, second: Option<int>)
  {
    && (forall d :: d in details <==> d in rounds && (first == Some(d.round) || second == Some(d.round)))
    && (forall i, j :: 0 <= i < j < |details| ==> details[i].round != details[j].round)
    && (first.Some? ==> |details| > 0 && first == Some(details[0].round))
  }

  lemma NoDetails(rounds: seq<RoundView>)
    ensures Details(rounds, [], None, None)
  {
  }

  lemma IndexInOrder(rounds: seq<RoundView>, d: RoundView)
    requires InOrder(rounds) && d in rounds
    ensures RoundIndex(rounds, d.round) < |rounds| && rounds[RoundIndex(rounds, d.round)] == d
  {
    var i :| 0 <= i < |rounds| && rounds[i] == d;
    IndexShows(rounds, d.round);
  }

  lemma FirstDetail(r: BlockView, n: int)
    requires InOrder(r.rounds)
    ensures Details(r.rounds, AddDetail(r, [], n), if Shows(r.rounds, n) then Some(n) else None, None)
  {
    PickShows(r, n);
    if Shows(r.rounds, n) {
      IndexShows(r.rounds, n);
      var found := r.rounds[RoundIndex(r.rounds, n)];
      assert AddDetail(r, [], n) == [found];
      forall d | d in r.rounds && d.round == n ensures d == found { IndexInOrder(r.rounds, d); }
    }
  }

  lemma SecondDetail(r: BlockView, details: seq<RoundView>, first: Option<int>, n: int)
    requires InOrder(r.rounds) && Details(r.rounds, details, first, None)
    ensures Details(r.rounds, AddDetail(r, details, n), first, if Shows(r.rounds, n) then Some(n) else None)
  {
    PickShows(r, n);
    IndexShows(r.rounds, n);
    IndexShows(details, n);
    hide RoundIndex, PickRound;
    if Shows(r.rounds, n) {
      var found := r.rounds[RoundIndex(r.rounds, n)];
      forall d | d in r.rounds && d.round == n ensures d == found { IndexInOrder(r.rounds, d); }
      if Shows(details, n) {
        var i :| 0 <= i < |details| && details[i].round == n;
        assert details[i] in details;
        assert first == Some(n);
      } else {
        assert AddDetail(r, details, n) == details + [found];
        MoreDetails(r.rounds, details, first, found);
      }
    }
  }

  lemma MoreDetails(rounds: seq<RoundView>, details: seq<RoundView>, first: Option<int>, found: RoundView)
    requires Details(rounds, details, first, None) && found in rounds && !Shows(details, found.round)
    requires forall d :: d in rounds && d.round == found.round ==> d == found
    ensures Details(rounds, details + [found], first, Some(found.round))
  {
  }

  // ---------- summaries ----------

  ghost predicate SumsUpGroup(g: PhaseGroup, x: GroupSummary)
  {
    x.hash == g.hash && x.power == g.power && x.validatorCount == |g.validators| && x.isCanonical == g.isCanonical
  }

  ghost predicate SumsUpPhase(p: PhaseView, x: PhaseSummary)
  {
    && |x.groups| == |p.groups| && (forall i :: 0 <= i < |p.groups| ==> SumsUpGroup(p.groups[i], x.groups[i]))
    && x.observedPower == p.observedPower && x.observedCount == p.observedCount
    && x.notObservedPower == p.notObservedPower && x.notObservedCount == |p.notObserved|
    && x.conflictingCount == |p.conflicting|
  }

  ghost predicate SumsUpRound(r: RoundView, x: RoundSummary)
  {
    && x.round == r.round && x.proposer == r.proposer && x.firstSeen == r.firstSeen && x.lastSeen == r.lastSeen
    && x.rosterComplete == r.rosterComplete && x.totalPower == r.totalPower && x.truncated == r.truncated
    && SumsUpPhase(r.prevotes, x.prevotes) && SumsUpPhase(r.precommits, x.precommits)
  }

  lemma {:induction false} GroupsSummedUp(groups: seq<PhaseGroup>)
    ensures var xs := SummarizeGroups(groups);
      |xs| == |groups| && forall i :: 0 <= i < |groups| ==> SumsUpGroup(groups[i], xs[i])
  {
    if groups != [] { GroupsSummedUp(groups[1..]); }
  }

  lemma PhaseSummedUp(p: PhaseView)
    ensures SumsUpPhase(p, SummarizePhase(p))
  {
    GroupsSummedUp(p.groups);
    hide SumsUpGroup, SummarizeGroups;
  }

  lemma {:induction false} RoundsSummedUp(rounds: seq<RoundView>)
    ensures var xs := SummarizeRounds(rounds);
      |xs| == |rounds| && forall i :: 0 <= i < |rounds| ==> SumsUpRound(rounds[i], xs[i])
  {
    if rounds != [] {
      RoundsSummedUp(rounds[1..]);
      PhaseSummedUp(rounds[0].prevotes);
      PhaseSummedUp(rounds[0].precommits);
      hide SumsUpPhase, SummarizePhase;
    }
  }

  // ---------- selection ----------

  /** What a selection of a report selects: the newest shown round, or the requested one if it is shown. */
  ghost predicate Selects(rounds: seq<RoundView>, sel: Selection, selected: Option<int>)
  {
    if sel.latest then if rounds == [] then selected.None? else selected.Some? && ShowsUpTo(rounds, selected.value)
    else selected == if Shows(rounds, sel.round) then Some(sel.round as int) else None
  }

  ghost predicate Compares(rounds: seq<RoundView>, sel: Selection, compared: Option<int>)
  {
    compared == if sel.comparison.Some? && Shows(rounds, sel.comparison.value) then Some(sel.comparison.value as int)
      else None
  }

  lemma LatestShows(rounds: seq<RoundView>)
    requires InOrder(rounds) && rounds != []
    ensures ShowsUpTo(rounds, rounds[|rounds| - 1].round)
  {
  }

  lemma ComparedDetails(r: BlockView, sel: Selection, first: seq<RoundView>, selected: Option<int>)
    requires InOrder(r.rounds) && Details(r.rounds, first, selected, None)
    ensures Details(r.rounds, if sel.comparison.Some? then AddDetail(r, first, sel.comparison.value)
      else first, selected,
      if sel.comparison.Some? && Shows(r.rounds, sel.comparison.value) then Some(sel.comparison.value as int) else None)
  {
    if sel.comparison.Some? { SecondDetail(r, first, selected, sel.comparison.value); }
  }

  /** A compact report, apart from what it says of rounds that are not shown. */
  ghost predicate Compacts(r: BlockView, sel: Selection, c: Compact)
  {
    && c.report == r.(rounds := [])
    && |c.summaries| == |r.rounds| && (forall i :: 0 <= i < |r.rounds| ==> SumsUpRound(r.rounds[i], c.summaries[i]))
    && Selects(r.rounds, sel, c.selected) && Compares(r.rounds, sel, c.compared)
    && Details(r.rounds, c.details, c.selected, c.compared)
    && (c.selection == Available <==> c.selected.Some?) && c.selection != NoComparison
    && (c.comparison == Available <==> c.compared.Some?) && (c.comparison == NoComparison <==> sel.comparison.None?)
  }

  /** The round a selection asks for, if it asks for one. */
  function Wanted(r: BlockView, sel: Selection): Option<int>
  {
    if !sel.latest then Some(sel.round) else if r.rounds == [] then None else Some(r.rounds[|r.rounds| - 1].round)
  }

  lemma CompactFields(r: BlockView, evidence: nat, catalogue: nat, epoch: string, sel: Selection)
    ensures var c, n := CompactOf(r, evidence, catalogue, epoch, sel), Wanted(r, sel);
      && c.report == r.(rounds := []) && c.epoch == epoch && c.revision == Render(evidence) + ":" + Render(catalogue)
      && c.summaries == SummarizeRounds(r.rounds)
      && c.selection == (if n.Some? then PickRound(r, n.value) else if r.status == Evicted then WasEvicted
        else WasNotObserved)
      && c.selected == (if c.selection == Available then n else None)
      && c.comparison == (if sel.comparison.Some? then PickRound(r, sel.comparison.value) else NoComparison)
      && c.compared == (if c.comparison == Available then Some(sel.comparison.value as int) else None)
      && var first := if n.Some? then AddDetail(r, [], n.value) else [];
      c.details == if sel.comparison.Some? then AddDetail(r, first, sel.comparison.value) else first
  {
    hide SummarizeRounds, PickRound, AddDetail, Render;
  }

  lemma SelectionOf(r: BlockView, sel: Selection)
    requires InOrder(r.rounds)
    ensures var n := Wanted(r, sel);
      && (n.Some? ==> Selects(r.rounds, sel, if Shows(r.rounds, n.value) then n else None))
      && (n.None? ==> Selects(r.rounds, sel, None))
  {
    if sel.latest && r.rounds != [] { LatestShows(r.rounds); }
    hide Shows, InOrder;
  }

  lemma DetailsOf(r: BlockView, sel: Selection)
    requires InOrder(r.rounds)
    ensures var n := Wanted(r, sel); var first := if n.Some? then AddDetail(r, [], n.value) else [];
      Details(r.rounds, if sel.comparison.Some? then AddDetail(r, first, sel.comparison.value) else first,
        if n.Some? && Shows(r.rounds, n.value) then n else None,
        if sel.comparison.Some? && Shows(r.rounds, sel.comparison.value) then Some(sel.comparison.value as int)
          else None)
  {
    var n := Wanted(r, sel);
    hide Shows, InOrder, Details, AddDetail, Wanted;
    if n.Some? {
      FirstDetail(r, n.value);
      ComparedDetails(r, sel, AddDetail(r, [], n.value), if Shows(r.rounds, n.value) then n else None);
    } else {
      NoDetails(r.rounds);
      ComparedDetails(r, sel, [], None);
    }
  }

  /**
   The compact report of any report with its rounds in order: it sums up every round in order, selects the newest shown
   round or the requested one if that is shown, likewise compares, details exactly those, and gives a reason for each
   round asked for that it does not show.
   */
  lemma CompactExactly(r: BlockView, evidence: nat, catalogue: nat, epoch: string, sel: Selection)
    requires InOrder(r.rounds)
    ensures var c := CompactOf(r, evidence, catalogue, epoch, sel);
      && Compacts(r, sel, c) && c.epoch == epoch && c.revision == Render(evidence) + ":" + Render(catalogue)
      && (!sel.latest && c.selected.None? ==> c.selection == PickRound(r, sel.round))
      && (sel.latest && c.selected.None? ==> c.selection == if r.status == Evicted then WasEvicted else WasNotObserved)
      && (sel.comparison.Some? && c.compared.None? ==> c.comparison == PickRound(r, sel.comparison.value))
  {
    CompactFields(r, evidence, catalogue, epoch, sel);
    RoundsSummedUp(r.rounds);
    SelectionOf(r, sel);
    DetailsOf(r, sel);
    var n := Wanted(r, sel);
    assert sel.latest && n.Some? ==> Shows(r.rounds, n.value) by { if sel.latest && n.Some? { LatestShows(r.rounds); } }
    assert !sel.latest ==> n == Some(sel.round as int);
    hide SumsUpRound, SummarizeRounds, PickRound, AddDetail, Details, Shows, InOrder, CompactOf, Selects, Wanted;
    if sel.comparison.Some? { PickShows(r, sel.comparison.value); }
    if n.Some? { PickShows(r, n.value); }
  }

  // ---------- reports of a run ----------

  lemma FullIsInOrder(t: TrackerState, h: int)
    requires h in t.archive && Filed(t.archive[h])
    ensures InOrder(FullReport(t, h).rounds)
    ensures forall n :: Shows(FullReport(t, h).rounds, n) <==> n in t.archive[h].rounds
  {
    ReportShowsRetained(t, h);
    var b, rounds := t.archive[h], FullReport(t, h).rounds;
    RoundsOrdered(b, b.rounds.Keys);
    assert Ascending(RoundLess, rounds);
    hide HeaderOf, FullReport;
    forall i, j | 0 <= i < j < |rounds| ensures rounds[i].round < rounds[j].round {
      assert RoundLess(rounds[i], rounds[j]);
    }
    forall n ensures Shows(rounds, n) <==> n in RoundsShown(FullReport(t, h)) { }
  }

  /** What a compact report with this selection answers when the rounds retained were these. */
  ghost predicate Answers(rounds: set<int>, r: BlockView, sel: Selection, c: Compact)
  {
    && Compacts(r, sel, c)
    && (sel.latest && rounds != {} ==>
          c.selected.Some? && c.selected.value in rounds && forall n :: n in rounds ==> n <= c.selected.value)
    && (sel.latest && rounds == {} ==> c.selected.None? && c.selection == WasNotObserved)
    && (!sel.latest ==> c.selected == if sel.round in rounds then Some(sel.round as int) else None)
    && (!sel.latest ==> c.selection == PickRound(r, sel.round))
    && (sel.comparison.Some? ==>
          && c.compared == (if sel.comparison.value in rounds then Some(sel.comparison.value as int) else None)
          && c.comparison == PickRound(r, sel.comparison.value))
  }

  lemma NothingShown(rounds: set<int>, shown: seq<RoundView>)
    requires forall n :: Shows(shown, n) <==> n in rounds
    ensures rounds == {} <==> shown == []
  {
    if shown != [] { assert Shows(shown, shown[0].round); }
    if rounds != {} {
      var n := Pick(rounds);
      assert Shows(shown, n);
    }
  }

  lemma GreatestShown(rounds: set<int>, shown: seq<RoundView>, n: int)
    requires forall m :: Shows(shown, m) <==> m in rounds
    requires ShowsUpTo(shown, n)
    ensures n in rounds && forall m :: m in rounds ==> m <= n
  {
    forall m | m in rounds ensures m <= n {
      assert Shows(shown, m);
    }
  }

  lemma AnswersFrom(rounds: set<int>, r: BlockView, evidence: nat, catalogue: nat, epoch: string, sel: Selection)
    requires InOrder(r.rounds) && r.status != Evicted && forall n :: Shows(r.rounds, n) <==> n in rounds
    ensures Answers(rounds, r, sel, CompactOf(r, evidence, catalogue, epoch, sel))
  {
    var c := CompactOf(r, evidence, catalogue, epoch, sel);
    CompactExactly(r, evidence, catalogue, epoch, sel);
    NothingShown(rounds, r.rounds);
    hide CompactOf, Shows, InOrder, Details, SumsUpRound, PickRound, ShowsUpTo;
    if sel.latest && r.rounds != [] { GreatestShown(rounds, r.rounds, c.selected.value); }
    PickShows(r, sel.round);
    if sel.comparison.Some? { PickShows(r, sel.comparison.value); }
  }

  lemma CatalogueKeeps(report: BlockView, header: BlockView, n: int)
    requires report.status != Evicted && header.status != Evicted
    ensures WithCatalogue(report, header).rounds == report.rounds
      && PickRound(WithCatalogue(report, header), n) == PickRound(report, n)
      && WithCatalogue(report, header).status != Evicted
  {
  }

  lemma RetainedIsFound(cfg: Config, run: seq<Timed>, at: nat, h: int)
    requires at <= |run| && h in Run(cfg, run[..at]).archive
    ensures VersionAt(cfg, run, at, h).header.status != Evicted && ReportAt(cfg, run, at, h).status != Evicted
    ensures InOrder(ReportAt(cfg, run, at, h).rounds)
    ensures forall n :: Shows(ReportAt(cfg, run, at, h).rounds, n) <==> n in Run(cfg, run[..at]).archive[h].rounds
  {
    ReportFiled(cfg, run[..at], h);
    var t := Run(cfg, run[..at]);
    assert HeaderOf(t, h).status != Evicted;
    StatusOfRetained(t, h);
    FullIsInOrder(t, h);
    hide HeaderOf, FullReport, Run, Filed, Shows, InOrder;
  }

  /**
   The compact answer to a record and a version that found the height. It selects the greatest round that was retained
   when the record was captured, or the requested one exactly if it was retained; what it says of the others is what
   SelectionIsHonest decides.
   */
  lemma CompactShowsRetained(cfg: Config, run: seq<Timed>, captured: nat, at: nat, h: int, evidence: nat, epoch: string,
        sel: Selection)
    requires captured <= |run| && at <= |run|
    requires h in Run(cfg, run[..captured]).archive && h in Run(cfg, run[..at]).archive
    ensures var v, report := VersionAt(cfg, run, at, h), ReportAt(cfg, run, captured, h);
      && Answers(Run(cfg, run[..captured]).archive[h].rounds.Keys, WithCatalogue(report, v.header), sel,
        CompactOf(WithCatalogue(report, v.header), evidence, v.catalogue, epoch, sel))
      && (forall n :: PickRound(WithCatalogue(report, v.header), n) == PickRound(report, n))
  {
    var v, report := VersionAt(cfg, run, at, h), ReportAt(cfg, run, captured, h);
    RetainedIsFound(cfg, run, captured, h);
    RetainedIsFound(cfg, run, at, h);
    hide *;
    forall n ensures PickRound(WithCatalogue(report, v.header), n) == PickRound(report, n) {
      CatalogueKeeps(report, v.header, n);
    }
    CatalogueKeeps(report, v.header, 0);
    AnswersFrom(Run(cfg, run[..captured]).archive[h].rounds.Keys, WithCatalogue(report, v.header), evidence,
      v.catalogue,
      epoch, sel);
  }
}
