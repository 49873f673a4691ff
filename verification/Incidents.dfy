/**
 When an incident is triggered and what a commit makes of the open records, stated on the tracker before and after
 the call.
 */
module Incidents {
  import opened Common
  import opened TrackerTypes
  import opened Archive
  import opened Detector
  import opened Tracker
  import opened TrackerRuns

  // ---------- counting a vote ----------

  /** The archive of u admitted the vote, its height is open, and its validator was not counted for this key before. */
  ghost predicate FirstVote(u: TrackerState, v: VoteEvent)
  {
    && u.Retained(v.height, v.round) && u.archive[v.height].rounds[v.round].Vote(v.addr, v.kind).Some?
    && v.height > u.committedHeight
    && (KeyOf(v) in u.rounds ==> v.addr !in u.rounds[KeyOf(v)].seen)
  }

  /** A named hash with positive power and at least the threshold's share of the total. */
  ghost predicate Weighty(rd: RoundData, hash: string, thresholdPct: real)
  {
    && hash in rd.groups && hash != "" && rd.groups[hash].power > 0
    && 100.0 * (rd.groups[hash].power as real) >= thresholdPct * (rd.totalVotingPower as real)
  }

  ghost predicate Divided(rd: RoundData, thresholdPct: real)
  {
    exists a, b :: a != b && Weighty(rd, a, thresholdPct) && Weighty(rd, b, thresholdPct)
  }

  lemma WeightyIsOver(rd: RoundData, hash: string, threshold: real)
    requires rd.totalVotingPower > 0
    ensures Weighty(rd, hash, threshold) <==> Over(rd, hash, threshold)
  {
    if hash in rd.groups { HeavyMeans(rd.groups[hash].power, rd.totalVotingPower, threshold); }
  }

  lemma DividedIsDivergent(rd: RoundData, key: Key, threshold: real)
    requires rd.totalVotingPower > 0
    ensures ReportOf(rd, key, threshold).isDivergent <==> Divided(rd, threshold)
  {
    VerdictIsSplit(rd, key, threshold);
    hide ReportOf, Weighty, Over;
    forall a ensures Weighty(rd, a, threshold) <==> Over(rd, a, threshold) { WeightyIsOver(rd, a, threshold); }
  }

  /** The record a first vote is counted in: the one of its key, or a new one with the default roster. */
  function OpenRecord(u: TrackerState, k: Key): RoundData
  {
    if k in u.rounds then u.rounds[k]
    else RoundData(map[], {}, u.defaultTotalPower, 0, u.defaultValidators, false, "", false, false, false)
  }

  /** A group shows the first five names of its voters. */
  function SampleMore(names: seq<string>, name: string): seq<string>
  {
    if name == "" || |names| >= 5 then names else names + [name]
  }

  /** rd2 is rd with one more voter: it joins the group of its hash with its roster power, and nothing else changes. */
  ghost predicate Joins(rd: RoundData, rd2: RoundData, a: string, hash: string)
  {
    && a !in rd.seen && rd2.seen == rd.seen + {a}
    && rd2.groups.Keys == rd.groups.Keys + {hash}
    && (forall x :: x in rd.groups && x != hash ==> rd2.groups[x] == rd.groups[x])
    && rd2.groups[hash].validators == (if hash in rd.groups then rd.groups[hash].validators else []) + [a]
    && rd2.groups[hash].power == (if hash in rd.groups then rd.groups[hash].power else 0) + PowerIn(rd.validators, a)
    && rd2.groups[hash].monikers
      == SampleMore(if hash in rd.groups then rd.groups[hash].monikers else [], MonikerIn(rd.validators, a))
    && rd2.totalVotedPower == rd.totalVotedPower + PowerIn(rd.validators, a)
    && rd2 == rd.(seen := rd2.seen, groups := rd2.groups, totalVotedPower := rd2.totalVotedPower,
      detected := rd2.detected)
  }

  lemma AddedJoins(rd: RoundData, a: string, hash: string, detected: bool)
    requires a !in rd.seen
    ensures Joins(rd, AddVote(rd, a, hash).(detected := detected), a, hash)
  {
  }

  lemma SameRows(rd: RoundData, detected: bool)
    ensures Rows(rd.(detected := detected)) == Rows(rd)
  {
  }

  lemma SameReport(rd: RoundData, key: Key, threshold: real, detected: bool)
    ensures ReportOf(rd.(detected := detected), key, threshold) == ReportOf(rd, key, threshold)
  {
    SameRows(rd, detected);
    hide Rows, Orders, Ascending, ScanDivergent;
  }

  lemma FirstVoteIsCounted(u: TrackerState, v: VoteEvent)
    ensures FirstVote(u, v)
      <==> HasVote(u, v) && v.height > u.committedHeight && v.addr !in OpenRecord(u, KeyOf(v)).seen
    ensures OpenRecord(u, KeyOf(v))
      == if KeyOf(v) in u.rounds then u.rounds[KeyOf(v)] else NewRoundData(u.defaultValidators, u.defaultTotalPower)
  {
  }

  /** Counting v, which the archive of u admitted at an open height, ends in x. */
  ghost predicate Counts(u: TrackerState, v: VoteEvent, x: Ingested)
  {
    var k, rounds := Key(v.height, v.round, v.kind), x.tracker.rounds;
    && k in rounds && x.tracker == u.(rounds := rounds) && rounds.Keys == u.rounds.Keys + {k}
    && (forall j :: j != k && j in u.rounds ==> rounds[j] == u.rounds[j])
    && x.report == Some(ReportOf(rounds[k], k, u.cfg.thresholdPct))
    && (v.addr in OpenRecord(u, k).seen ==> rounds[k] == OpenRecord(u, k) && !x.trigger)
    && (v.addr !in OpenRecord(u, k).seen ==> Joins(OpenRecord(u, k), rounds[k], v.addr, v.hash))
    && (v.addr !in OpenRecord(u, k).seen ==> rounds[k].detected == (OpenRecord(u, k).detected || x.trigger))
  }

  lemma PutRecord(u: TrackerState, k: Key, rd: RoundData)
    ensures u.rounds[k := rd].Keys == u.rounds.Keys + {k} && u.rounds[k := rd][k] == rd
    ensures forall j :: j != k && j in u.rounds ==> u.rounds[k := rd][j] == u.rounds[j]
  {
  }

  lemma CountVoteCases(u: TrackerState, v: VoteEvent)
    ensures var k, x := KeyOf(v), CountVote(u, v); var rd := OpenRecord(u, k); var next := AddVote(rd, v.addr, v.hash);
      && (v.addr in rd.seen ==>
            x == Ingested(u.(rounds := u.rounds[k := rd]), Some(ReportOf(rd, k, u.cfg.thresholdPct)), false))
      && (v.addr !in rd.seen ==>
            x == Ingested(u.(rounds := u.rounds[k := next.(detected := next.detected || x.trigger)]),
              Some(ReportOf(next, k, u.cfg.thresholdPct)), x.trigger))
  {
    hide ReportOf, AddVote, Fires;
  }

  lemma CountVoteCounts(u: TrackerState, v: VoteEvent)
    ensures Counts(u, v, CountVote(u, v))
  {
    var k, x := KeyOf(v), CountVote(u, v);
    var rd := OpenRecord(u, k);
    var next := AddVote(rd, v.addr, v.hash);
    CountVoteCases(u, v);
    PutRecord(u, k, x.tracker.rounds[k]);
    if v.addr !in rd.seen {
      AddedJoins(rd, v.addr, v.hash, next.detected || x.trigger);
      SameReport(next, k, u.cfg.thresholdPct, next.detected || x.trigger);
      KeepsDetected(rd, v.addr, v.hash);
    }
    hide ReportOf, AddVote, Joins, CountVote, OpenRecord;
  }

  /**
   What ingesting a vote does beyond observing it. A vote the archive refused, or of a committed height, gets no report.
   Otherwise a first vote joins the record of its key, and a voter counted before changes no record; the report handed
   out is that of the record as it is left.
   */
  lemma IngestCountsFirstVotes(t: TrackerState, v: VoteEvent, now: int)
    ensures var u, x := ObserveVote(t, v, now), IngestVote(t, v, now);
      if u.Retained(v.height, v.round) && u.archive[v.height].rounds[v.round].Vote(v.addr, v.kind).Some?
        && v.height > u.committedHeight
      then Counts(u, v, x) else x == Ingested(u, None, false)
  {
    CountVoteCounts(ObserveVote(t, v, now), v);
    hide ObserveVote, CountVote, Counts;
  }

  lemma KeepsDetected(rd: RoundData, a: string, hash: string)
    ensures AddVote(rd, a, hash).detected == rd.detected && AddVote(rd, a, hash).advanced == rd.advanced
  {
  }

  /**
   A call triggers an incident if and only if it counts a first vote of a phase that may trigger, the record is neither
   marked as advanced nor detected, more than two thirds of a positive total precommitted or, when prevotes are
   included, the whole total voted, and two named hashes are over the threshold.
   */
  lemma TriggersExactly(t: TrackerState, v: VoteEvent, now: int)
    ensures var u, x, k := ObserveVote(t, v, now), IngestVote(t, v, now), Key(v.height, v.round, v.kind);
      x.trigger <==>
        && FirstVote(u, v) && (k in u.rounds ==> !u.rounds[k].advanced && !u.rounds[k].detected)
        && k in x.tracker.rounds && var rd := x.tracker.rounds[k];
        && rd.totalVotingPower > 0
        && ((v.kind == Precommit && 3 * rd.totalVotedPower > 2 * rd.totalVotingPower)
            || (u.cfg.includePrevotes && rd.totalVotedPower == rd.totalVotingPower))
        && Divided(rd, u.cfg.thresholdPct)
  {
    var u, x, k := ObserveVote(t, v, now), IngestVote(t, v, now), KeyOf(v);
    IngestCountsFirstVotes(t, v, now);
    if HasVote(u, v) && v.addr !in OpenRecord(u, k).seen {
      var rd := AddVote(OpenRecord(u, k), v.addr, v.hash);
      FirstVoteIsCounted(u, v);
      KeepsDetected(OpenRecord(u, k), v.addr, v.hash);
      SameDivision(rd, true, u.cfg.thresholdPct);
      if rd.totalVotingPower > 0 { DividedIsDivergent(rd, k, u.cfg.thresholdPct); }
    }
    hide ObserveVote, ReportOf, AddVote, Divided, Joins;
  }

  lemma SameDivision(rd: RoundData, detected: bool, threshold: real)
    ensures Divided(rd.(detected := detected), threshold) <==> Divided(rd, threshold)
  {
    hide Divided, Weighty;
    assert forall a :: Weighty(rd.(detected := detected), a, threshold) <==> Weighty(rd, a, threshold) by {
      forall a ensures Weighty(rd.(detected := detected), a, threshold) <==> Weighty(rd, a, threshold) {
        SameWeight(rd, detected, a, threshold);
      }
    }
    DividedSame(rd, rd.(detected := detected), threshold);
  }

  lemma SameWeight(rd: RoundData, detected: bool, a: string, threshold: real)
    ensures Weighty(rd.(detected := detected), a, threshold) <==> Weighty(rd, a, threshold)
  {
  }

  lemma DividedSame(rd: RoundData, rd2: RoundData, threshold: real)
    requires forall a :: Weighty(rd2, a, threshold) <==> Weighty(rd, a, threshold)
    ensures Divided(rd2, threshold) <==> Divided(rd, threshold)
  {
    hide Weighty;
  }

  // ---------- rounds the consensus has left ----------

  /** Marking a round marks the records of both its phases, where they exist, and touches nothing else. */
  lemma MarksBothPhases(t: TrackerState, h: int, r: int)
    requires ArchiveOk(t)
    ensures var u := MarkRoundAdvanced(t, h, r);
      && u == t.(rounds := u.rounds) && u.rounds.Keys == t.rounds.Keys
      && (forall k :: k in t.rounds ==>
            u.rounds[k] == if k in {Key(h, r, Prevote), Key(h, r, Precommit)} then t.rounds[k].(advanced := true)
              else t.rounds[k])
  {
    KeysAreArchived(t);
    hide ArchiveOk;
  }

  // ---------- commits ----------

  /** What a commit of h makes of a record: nothing if it is resolved or above, no hash if it is below. */
  ghost predicate ClosedBy(rd: RoundData, rd2: RoundData, k: Key, h: int, hash: string)
  {
    && (rd.resolved || k.height > h ==> rd2 == rd)
    && (!rd.resolved && k.height == h ==> rd2 == rd.(committed := true, resolved := true, canonicalHash := hash))
    && (!rd.resolved && k.height < h ==> rd2 == rd.(committed := true, resolved := true))
  }

  /**
   A row for each group and no other, heaviest first; canonical is the group of the resolved hash, if there is one.
   */
  ghost predicate RowsShow(rd: RoundData, rows: seq<GroupRow>, canonical: Option<string>)
  {
    && (forall i :: 0 <= i < |rows| ==> RowShows(rd, rows[i], canonical))
    && (forall g :: g in rd.groups ==> exists i :: 0 <= i < |rows| && rows[i].hash == g)
    && (forall i, j :: 0 <= i < j < |rows| ==>
          rows[i].power > rows[j].power || (rows[i].power == rows[j].power && StrLess(rows[i].hash, rows[j].hash)))
  }

  ghost predicate RowShows(rd: RoundData, row: GroupRow, canonical: Option<string>)
  {
    && row.hash in rd.groups && (row.isCanonical <==> canonical == Some(row.hash))
    && (rd.totalVotingPower > 0 ==> row.pct == 100.0 * (row.power as real) / (rd.totalVotingPower as real))
    && row.power == rd.groups[row.hash].power && row.validators == rd.groups[row.hash].validators
    && row.monikers == rd.groups[row.hash].monikers
  }

  lemma RowOfShows(rd: RoundData, g: string)
    requires g in rd.groups
    ensures RowShows(rd, Detector.RowOf(rd, g), if rd.resolved then Some(rd.canonicalHash) else None)
    ensures Detector.RowOf(rd, g).hash == g
  {
  }

  /** The rows of a report are those of the record's groups, in the order of the comparator. */
  lemma SortedRows(rd: RoundData, key: Key, threshold: real)
    ensures var rows := ReportOf(rd, key, threshold).groups;
      && (forall i :: 0 <= i < |rows| ==> rows[i] in Rows(rd)) && (forall row :: row in Rows(rd) ==> row in rows)
      && Ascending(RowLess, rows)
  {
    RowsOrdered(rd);
    var rows := SortSet(RowLess, Rows(rd));
    assert ReportOf(rd, key, threshold).groups == rows;
    hide ReportOf, Orders, Ascending, Rows;
    forall i | 0 <= i < |rows| ensures rows[i] in Rows(rd) {
      assert rows[i] in Elements(rows);
    }
    forall row | row in Rows(rd) ensures row in rows {
      assert row in Elements(rows);
    }
  }

  lemma OneRow(rd: RoundData, row: GroupRow)
    requires row in Rows(rd)
    ensures RowShows(rd, row, if rd.resolved then Some(rd.canonicalHash) else None)
  {
    hide RowShows;
    var g :| g in rd.groups && row == Detector.RowOf(rd, g);
    RowOfShows(rd, g);
  }

  lemma RowOfEach(rd: RoundData, rows: seq<GroupRow>, g: string)
    requires g in rd.groups && forall row :: row in Rows(rd) ==> row in rows
    ensures exists i :: 0 <= i < |rows| && rows[i].hash == g
  {
    RowOfShows(rd, g);
    assert Detector.RowOf(rd, g) in Rows(rd);
    hide Rows, RowShows;
    var i :| 0 <= i < |rows| && rows[i] == Detector.RowOf(rd, g);
  }

  lemma ReportRows(rd: RoundData, key: Key, threshold: real)
    ensures RowsShow(rd, ReportOf(rd, key, threshold).groups, if rd.resolved then Some(rd.canonicalHash) else None)
  {
    var rows := ReportOf(rd, key, threshold).groups;
    SortedRows(rd, key, threshold);
    hide ReportOf, Rows, RowShows;
    forall i | 0 <= i < |rows|
      ensures RowShows(rd, rows[i], if rd.resolved then Some(rd.canonicalHash) else None)
    {
      OneRow(rd, rows[i]);
    }
    forall g | g in rd.groups ensures exists i :: 0 <= i < |rows| && rows[i].hash == g { RowOfEach(rd, rows, g); }
  }

  /** The report of a record that a commit of its height with this hash closed. */
  ghost predicate Reports(rd: RoundData, report: RoundReport, hash: string, threshold: real)
  {
    && report.resolved && report.canonicalHash == hash && RowsShow(rd, report.groups, Some(hash))
    && report.totalVotingPower == rd.totalVotingPower && report.totalVotedPower == rd.totalVotedPower
    && (rd.totalVotingPower > 0 ==> (report.isDivergent <==> Divided(rd, threshold)))
  }

  /** The reports list exactly the records of h that were open in t and still have their round, by round and phase. */
  ghost predicate Resolves(t: TrackerState, w: TrackerState, h: int, hash: string, reports: seq<RoundReport>)
  {
    && (forall i :: 0 <= i < |reports| ==>
          && reports[i].key in w.rounds && reports[i].key in t.rounds && reports[i].key.height == h
          && !t.rounds[reports[i].key].resolved
          && Reports(t.rounds[reports[i].key], reports[i], hash, t.cfg.thresholdPct))
    && (forall k :: k in w.rounds && k in t.rounds && k.height == h && !t.rounds[k].resolved ==>
          exists i :: 0 <= i < |reports| && reports[i].key == k)
    && (forall i, j :: 0 <= i < j < |reports| ==> InOrder(reports[i].key, reports[j].key))
  }

  /** Earlier rounds first, and in a round the prevotes first. */
  predicate InOrder(a: Key, b: Key)
  {
    a.round < b.round || (a.round == b.round && a.kind == Prevote && b.kind == Precommit)
  }

  lemma ClosedKeeps(rd: RoundData, k: Key, hash: string)
    requires !rd.resolved
    ensures var closed := Close(rd, k, k.height, hash);
      && closed.groups == rd.groups && closed.totalVotingPower == rd.totalVotingPower
      && closed.totalVotedPower == rd.totalVotedPower && closed.resolved && closed.canonicalHash == hash
  {
  }

  lemma DividedKept(rd: RoundData, rd2: RoundData, threshold: real)
    requires rd2.groups == rd.groups && rd2.totalVotingPower == rd.totalVotingPower
    ensures Divided(rd2, threshold) <==> Divided(rd, threshold)
  {
    forall a ensures Weighty(rd2, a, threshold) <==> Weighty(rd, a, threshold) { }
    DividedSame(rd, rd2, threshold);
  }

  lemma ReportFields(rd: RoundData, k: Key, threshold: real)
    ensures var report := ReportOf(rd, k, threshold);
      && report.key == k && report.resolved == rd.resolved && report.canonicalHash == rd.canonicalHash
      && report.totalVotingPower == rd.totalVotingPower && report.totalVotedPower == rd.totalVotedPower
  {
  }

  lemma ClosedReports(rd: RoundData, k: Key, hash: string, threshold: real)
    requires !rd.resolved
    ensures var report := ReportOf(Close(rd, k, k.height, hash), k, threshold);
      report.key == k && Reports(rd, report, hash, threshold)
  {
    var closed := Close(rd, k, k.height, hash);
    ClosedKeeps(rd, k, hash);
    ReportRows(closed, k, threshold);
    ReportFields(closed, k, threshold);
    DividedKept(rd, closed, threshold);
    if rd.totalVotingPower > 0 { DividedIsDivergent(closed, k, threshold); }
    SameRowsShow(rd, closed, k, threshold, hash);
    hide Divided, RowsShow, Close, ReportOf;
  }

  lemma SameRowsShow(rd: RoundData, rd2: RoundData, k: Key, threshold: real, hash: string)
    requires rd2.groups == rd.groups && rd2.totalVotingPower == rd.totalVotingPower
    requires RowsShow(rd2, ReportOf(rd2, k, threshold).groups, Some(hash))
    ensures RowsShow(rd, ReportOf(rd2, k, threshold).groups, Some(hash))
  {
    hide ReportOf;
  }

  lemma ClosesRecords(u: TrackerState, h: int, hash: string)
    requires 0 <= u.cfg.historySize
    ensures var w, all := CloseAll(u, h, hash), u.history + ResolvedReports(u, h, hash);
      && w == u.(rounds := w.rounds, history := w.history)
      && (forall k :: k in w.rounds <==> k in u.rounds && k.height >= h - u.cfg.historySize)
      && (forall k :: k in w.rounds ==> ClosedBy(u.rounds[k], w.rounds[k], k, h, hash))
      && |w.history| == Min(|all|, 4 * u.cfg.historySize) && w.history == all[|all| - |w.history|..]
  {
    hide ResolvedReports;
  }

  lemma OneReport(u: TrackerState, h: int, hash: string, report: RoundReport)
    requires report in ClosingReports(u, h, hash)
    ensures var k := report.key; k in Closing(u, h) && Reports(u.rounds[k], report, hash, u.cfg.thresholdPct)
  {
    hide ReportOf, Reports, Close;
    var k :| k in Closing(u, h) && report == ReportOf(Close(u.rounds[k], k, h, hash), k, u.cfg.thresholdPct);
    ClosedReports(u.rounds[k], k, hash, u.cfg.thresholdPct);
  }

  lemma ReportOfEach(u: TrackerState, h: int, hash: string, k: Key)
    requires k in Closing(u, h)
    ensures exists report :: report in ClosingReports(u, h, hash) && report.key == k
  {
    hide ReportOf, Reports, Close;
    var report := ReportOf(Close(u.rounds[k], k, h, hash), k, u.cfg.thresholdPct);
    ClosedReports(u.rounds[k], k, hash, u.cfg.thresholdPct);
    assert report in ClosingReports(u, h, hash);
  }

  lemma ResolvedListing(u: TrackerState, h: int, hash: string)
    ensures var reports := ResolvedReports(u, h, hash);
      Elements(reports) == ClosingReports(u, h, hash) && Ascending(ReportLess, reports)
  {
    ClosingOrdered(u, h, hash);
  }

  lemma ListedReports(u: TrackerState, h: int, hash: string, reports: seq<RoundReport>)
    requires Elements(reports) == ClosingReports(u, h, hash)
    ensures forall i :: 0 <= i < |reports| ==>
      reports[i].key in Closing(u, h) && Reports(u.rounds[reports[i].key], reports[i], hash, u.cfg.thresholdPct)
    ensures forall k :: k in Closing(u, h) ==> exists i :: 0 <= i < |reports| && reports[i].key == k
  {
    hide Reports, ClosingReports;
    forall i | 0 <= i < |reports|
      ensures reports[i].key in Closing(u, h)
        && Reports(u.rounds[reports[i].key], reports[i], hash, u.cfg.thresholdPct)
    {
      assert reports[i] in Elements(reports);
      OneReport(u, h, hash, reports[i]);
    }
    forall k | k in Closing(u, h) ensures exists i :: 0 <= i < |reports| && reports[i].key == k {
      ReportOfEach(u, h, hash, k);
      var report :| report in Elements(reports) && report.key == k;
      var i :| 0 <= i < |reports| && reports[i] == report;
    }
  }

  lemma ReportsInOrder(reports: seq<RoundReport>)
    requires Ascending(ReportLess, reports) && forall i :: 0 <= i < |reports| ==> reports[i].key.kind != OtherType
    ensures forall i, j :: 0 <= i < j < |reports| ==> InOrder(reports[i].key, reports[j].key)
  {
  }

  lemma ListingResolves(u: TrackerState, w: TrackerState, h: int, hash: string, reports: seq<RoundReport>)
    requires Elements(reports) == ClosingReports(u, h, hash) && Ascending(ReportLess, reports)
    requires forall k :: k in u.rounds ==> k.kind != OtherType
    requires forall k :: k in Closing(u, h) ==> k in w.rounds
    ensures Resolves(u, w, h, hash, reports)
  {
    ListedReports(u, h, hash, reports);
    hide Reports, InOrder, ClosingReports, ReportLess, Elements;
    ReportsInOrder(reports);
  }

  lemma ReportsResolve(u: TrackerState, h: int, hash: string)
    requires ArchiveOk(u)
    ensures Resolves(u, CloseAll(u, h, hash), h, hash, ResolvedReports(u, h, hash))
  {
    KeysAreArchived(u);
    assert u.cfg.historySize >= 1;
    ClosesRecords(u, h, hash);
    ResolvedListing(u, h, hash);
    hide ArchiveOk, CloseAll, ResolvedReports, ClosingReports, ClosedBy, Resolves, Ascending, Elements;
    ListingResolves(u, CloseAll(u, h, hash), h, hash, ResolvedReports(u, h, hash));
  }

  lemma ResolveIsCloseAll(t: TrackerState, h: int, hash: string, now: int)
    ensures ResolveCommit(t, h, hash, now) == CloseAll(CommitArchive(t, h, hash, now), h, hash)
    ensures CommitArchive(t, h, hash, now) == AdvanceCommitted(ArchiveCommit(t, h, hash, now), h)
  {
    hide CloseAll, ArchiveCommit;
  }

  lemma CommittedFacts(t: TrackerState, a: TrackerState, h: int)
    requires OnlyPruned(t, a)
    ensures OnlyPruned(t, AdvanceCommitted(a, h).(committedHeight := t.committedHeight))
    ensures AdvanceCommitted(a, h).committedHeight == Max(t.committedHeight, h)
  {
  }

  /**
   w is t after a commit of h. The records whose round is gone or below the cutoff are forgotten, the open ones of h are
   resolved with the hash and reported in order, the open ones below are resolved without a hash, the others stay; the
   history takes the reports and keeps its newest.
   */
  ghost predicate Commits(t: TrackerState, w: TrackerState, h: int, hash: string, reports: seq<RoundReport>)
  {
    && w.committedHeight == Max(t.committedHeight, h)
    && (forall k :: k in w.rounds <==>
          k in t.rounds && w.Retained(k.height, k.round) && k.height >= h - t.cfg.historySize)
    && (forall k :: k in w.rounds ==> ClosedBy(t.rounds[k], w.rounds[k], k, h, hash))
    && Resolves(t, w, h, hash, reports)
    && |w.history| == Min(|t.history + reports|, 4 * t.cfg.historySize)
    && w.history == (t.history + reports)[|t.history + reports| - |w.history|..]
  }

  lemma PrunedResolves(t: TrackerState, u: TrackerState, w: TrackerState, h: int, hash: string,
        reports: seq<RoundReport>)
    requires OnlyPruned(t, u.(committedHeight := t.committedHeight)) && u.cfg == t.cfg
    requires forall k :: k in w.rounds ==> k in u.rounds
    requires Resolves(u, w, h, hash, reports)
    ensures Resolves(t, w, h, hash, reports)
  {
    hide Reports, InOrder;
  }

  lemma PrunedCommits(t: TrackerState, u: TrackerState, w: TrackerState, h: int, hash: string,
        reports: seq<RoundReport>)
    requires OnlyPruned(t, u.(committedHeight := t.committedHeight)) && u.cfg == t.cfg
    requires Commits(u, w, h, hash, reports) && u.committedHeight == Max(t.committedHeight, h)
    requires w.archive == u.archive
    ensures Commits(t, w, h, hash, reports)
  {
    hide Reports, InOrder, ClosedBy, Resolves;
    PrunedResolves(t, u, w, h, hash, reports);
  }

  lemma CommitsIntro(u: TrackerState, w: TrackerState, h: int, hash: string, reports: seq<RoundReport>)
    requires w == u.(rounds := w.rounds, history := w.history) && u.committedHeight >= h
    requires forall k :: k in u.rounds ==> u.Retained(k.height, k.round)
    requires forall k :: k in w.rounds <==> k in u.rounds && k.height >= h - u.cfg.historySize
    requires forall k :: k in w.rounds ==> ClosedBy(u.rounds[k], w.rounds[k], k, h, hash)
    requires Resolves(u, w, h, hash, reports)
    requires |w.history| == Min(|u.history + reports|, 4 * u.cfg.historySize)
    requires w.history == (u.history + reports)[|u.history + reports| - |w.history|..]
    ensures Commits(u, w, h, hash, reports)
  {
    hide ClosedBy, Resolves;
  }

  lemma CloseAllCommits(u: TrackerState, h: int, hash: string)
    requires ArchiveOk(u) && u.committedHeight >= h
    ensures var w := CloseAll(u, h, hash); Commits(u, w, h, hash, ResolvedReports(u, h, hash)) && w.archive == u.archive
  {
    KeysAreArchived(u);
    assert 1 <= u.cfg.historySize;
    ClosesRecords(u, h, hash);
    ReportsResolve(u, h, hash);
    hide ArchiveOk, CloseAll, ResolvedReports, Resolves, ClosedBy, Commits;
    CommitsIntro(u, CloseAll(u, h, hash), h, hash, ResolvedReports(u, h, hash));
  }

  lemma CommitResolves(t: TrackerState, h: int, hash: string, now: int)
    requires ArchiveOk(t)
    ensures Commits(t, ResolveCommit(t, h, hash, now), h, hash,
      ResolvedReports(CommitArchive(t, h, hash, now), h, hash))
  {
    var a, u := ArchiveCommit(t, h, hash, now), CommitArchive(t, h, hash, now);
    ArchiveCommitPrunes(t, h, hash, now);
    ArchiveCommitEvolves(t, h, hash, now);
    AdvanceCommittedEvolves(t, a, h);
    EvolvesOk(t, AdvanceCommitted(a, h));
    CommittedFacts(t, a, h);
    ResolveIsCloseAll(t, h, hash, now);
    SameConfig(t, u);
    hide *;
    CloseAllCommits(u, h, hash);
    AtLeast(t.committedHeight, h);
    PrunedCommits(t, u, CloseAll(u, h, hash), h, hash, ResolvedReports(u, h, hash));
  }

  lemma SameConfig(t: TrackerState, u: TrackerState)
    requires Ages(t, u)
    ensures u.cfg == t.cfg
  {
    hide Admissible;
  }

  lemma AtLeast(a: int, b: int)
    ensures Max(a, b) >= b
  {
  }
}
