/**
 How fresh a cached answer is and how long it stays: exactly when get hits, joins or builds, what its records remember
 of the calls that built and used them, and what publishing and encoding leave in the cache.
 */
module Freshness {
  import opened Common
  import opened TrackerTypes
  import opened Archive
  import opened Tracker
  import opened Snapshot
  import opened RoundsCache
  import opened CacheViews
  import opened CacheRuns

  // ---------- one lookup ----------

  /** The record's boundary is that of the version: no commit, no canonical hash and no eviction in between. */
  predicate SameBoundary(e: Entry, v: Version)
  {
    && e.report.committed == v.header.committed && e.report.canonicalHash == v.header.canonicalHash
    && e.report.coverage.evicted == v.header.coverage.evicted
  }

  /** The record may be handed out for the version at clock reading now. */
  predicate MayServe(e: Entry, v: Version, allowCoalesce: bool, now: int)
  {
    e.evidence == v.evidence || (allowCoalesce && SameBoundary(e, v) && now - e.builtAt < 250_000_000)
  }

  predicate ListsRecord(c: Cache, h: int, id: nat) { h in c.entries && c.entries[h] == id && id in c.table }

  /**
   A lookup of a height the version did not find unlists it. Otherwise it hits exactly when the listed record has the
   version's evidence or, where coalescing is allowed, the same boundary and an age under a quarter of a second; else it
   joins the flight of the height if one is open, and opens one if not.
   */
  lemma LookupExactly(c: Cache, h: int, v: Version, allowCoalesce: bool, now: int)
    requires Indexed(c.table, c.entries)
    ensures var r := Lookup(c, h, v, allowCoalesce, now);
      && (r.found == Missing <==> !v.header.found)
      && (r.found == Missing ==> r.cache.entries == c.entries - {h} && r.cache.flights == c.flights)
      && (forall id :: r.found == Hit(id) <==>
            v.header.found && ListsRecord(c, h, id) && MayServe(c.table[id], v, allowCoalesce, now))
      && (r.found == Join ==> h in c.flights && r.cache == c)
      && (r.found == Build ==> h !in c.flights && r.cache == c.(flights := c.flights + {h}))
      && (r.found.Hit? ==> r.cache.entries == c.entries && r.cache.flights == c.flights)
  {
    LookupCases(c, h, v, allowCoalesce, now);
    if h !in c.entries { assert c.entries - {h} == c.entries; }
  }

  // ---------- what a record remembers ----------

  /** The act finishes the get that built e under this identity: its clock, its capture, its height, its charge. */
  ghost predicate Builds(s: Setting, w: World, act: Act, id: nat, e: Entry)
  {
    && act.FinishGet? && act.id == id && !act.failed && act.caller in w.building
    && e.height == w.building[act.caller].height && e.captured == act.captured && e.builtAt == act.now
    && e.base == 3 * |s.marshal.full(e.report)|
  }

  /** The act builds the record or hands it out from the cache. */
  ghost predicate Uses(s: Setting, w: World, act: Act, id: nat)
  {
    || (act.FinishGet? && act.id == id && !act.failed)
    || (act.StartGet? && act.at <= |w.run|
      && LookedUp(s, w, act.height, act.at, act.allowCoalesce, act.now).found == Hit(id))
  }

  function ClockOf(act: Act): int { if act.StartGet? || act.FinishGet? then act.now else 0 }

  /** What one act leaves of the record under an identity. */
  ghost predicate RecordStep(s: Setting, w: World, act: Act, u: World, id: nat)
  {
    && (id in w.cache.table ==> id in u.cache.table)
    && (id in u.cache.table ==>
          if id in w.cache.table then
            && SameRecord(w.cache.table[id], u.cache.table[id])
            && u.cache.table[id].lastUsed == if Uses(s, w, act, id) then ClockOf(act) else w.cache.table[id].lastUsed
          else
            && Builds(s, w, act, id, u.cache.table[id]) && Uses(s, w, act, id)
            && u.cache.table[id].lastUsed == ClockOf(act))
  }

  lemma LookupRecords(c: Cache, h: int, v: Version, allowCoalesce: bool, now: int, id: nat)
    ensures var r := Lookup(c, h, v, allowCoalesce, now);
      && (id in c.table <==> id in r.cache.table)
      && (id in c.table ==>
            && SameRecord(c.table[id], r.cache.table[id])
            && r.cache.table[id].lastUsed == if r.found == Hit(id) then now else c.table[id].lastUsed)
  {
    LookupCases(c, h, v, allowCoalesce, now);
    hide Lookup, Servable, Remove;
  }

  lemma StartGetRecords(s: Setting, w: World, act: Act, u: World, id: nat)
    requires Does(s, w, act, u) && act.StartGet?
    ensures RecordStep(s, w, act, u, id)
  {
    LookupRecords(w.cache, act.height, VersionAt(s.cfg, w.run, act.at, act.height), act.allowCoalesce, act.now, id);
    assert u.cache == LookedUp(s, w, act.height, act.at, act.allowCoalesce, act.now).cache by {
      hide Lookup, VersionAt;
    }
    hide Lookup, VersionAt, Does, SameRecord, Builds;
  }

  lemma BuiltIs(s: Setting, w: World, act: Act)
    requires act.FinishGet? && !act.failed && act.caller in w.building && act.captured <= |w.run|
    ensures var e := Built(s, w.run, w.building[act.caller].height, act.captured, act.now);
      Builds(s, w, act, act.id, e) && e.lastUsed == act.now
  {
    hide ReportAt, Run;
  }

  lemma FinishGetMeans(s: Setting, w: World, act: Act, u: World)
    requires Does(s, w, act, u) && act.FinishGet?
    ensures act.caller in w.building && act.captured <= |w.run| && act.latest <= |w.run| && act.id !in w.cache.table
    ensures var h := w.building[act.caller].height;
      PublishedTo(w.cache, u.cache, h, act.id,
        if act.failed then None else Some(Built(s, w.run, h, act.captured, act.now)),
        VersionAt(s.cfg, w.run, act.latest, h))
  {
    hide PublishedTo, VersionAt, Built;
  }

  lemma PublishedRecords(s: Setting, w: World, act: Act, u: World, id: nat, built: Option<Entry>)
    requires act.FinishGet? && act.id !in w.cache.table
    requires u.cache.table == if built.Some? then w.cache.table[act.id := built.value] else w.cache.table
    requires built.Some? <==> !act.failed
    requires built.Some? ==> Builds(s, w, act, act.id, built.value) && built.value.lastUsed == act.now
    ensures RecordStep(s, w, act, u, id)
  {
    hide Builds;
  }

  lemma FinishGetRecords(s: Setting, w: World, act: Act, u: World, id: nat)
    requires Does(s, w, act, u) && act.FinishGet?
    ensures RecordStep(s, w, act, u, id)
  {
    hide *;
    FinishGetMeans(s, w, act, u);
    var h := w.building[act.caller].height;
    var built := if act.failed then None else Some(Built(s, w.run, h, act.captured, act.now));
    if !act.failed { BuiltIs(s, w, act); }
    PublishedFacts(w.cache, u.cache, h, act.id, built, VersionAt(s.cfg, w.run, act.latest, h));
    PublishedRecords(s, w, act, u, id, built);
  }

  lemma EncodeKeepsUse(c: Cache, d: Cache, id: nat, key: string, body: Option<string>, x: nat)
    requires id in c.table && EncodedTo(c, d, id, key, body) && x in c.table
    ensures x in d.table && d.table[x].lastUsed == c.table[x].lastUsed
  {
    if body.Some? && IsCached(c, id) {
      var mid :| TrimmedTo(Store(c, id, key, body.value), mid) && id in mid.table && d == Land(mid, id, key);
      TrimKeepsTable(Store(c, id, key, body.value), mid);
      hide TrimmedTo, VariantBytes;
    } else {
      hide TrimmedTo, VariantBytes, Store;
    }
  }

  lemma OnlyRecordKeeps(c: Cache, d: Cache, id: nat, x: nat)
    requires OnlyRecord(c, d, id)
    ensures x in c.table <==> x in d.table
    ensures x in c.table ==> SameRecord(c.table[x], d.table[x])
  {
  }

  lemma StartEncodeRecords(s: Setting, w: World, act: Act, u: World, id: nat)
    requires Does(s, w, act, u) && act.StartEncode?
    ensures RecordStep(s, w, act, u, id)
  {
    var key := ViewKey(s.epoch, w.cache.table[act.id], act.req);
    LookupVariantFacts(w.cache, act.id, key);
    var d := VariantLookup(w.cache, act.id, key).0;
    assert u.cache == d by { hide ViewKey, Paired; }
    OnlyRecordKeeps(w.cache, d, act.id, id);
    assert id in w.cache.table ==> d.table[id].lastUsed == w.cache.table[id].lastUsed;
    hide Does, ViewKey, Paired, VariantLookup, SameRecord, OnlyRecord, Builds;
  }

  lemma FinishEncodeRecords(s: Setting, w: World, act: Act, u: World, id: nat)
    requires Does(s, w, act, u) && act.FinishEncode?
    ensures RecordStep(s, w, act, u, id)
  {
    var job := w.encoding[act.caller];
    var body := if act.failed then None else Some(BodyOf(s.marshal, s.epoch, w.cache.table[job.id], job.req));
    assert EncodedTo(w.cache, u.cache, job.id, job.key, body) by { hide EncodedTo, BodyOf; }
    EncodedFacts(w.cache, u.cache, job.id, job.key, body);
    OnlyRecordKeeps(w.cache, u.cache, job.id, id);
    hide Does, EncodedTo, BodyOf, SameRecord, OnlyRecord, Builds;
    if id in w.cache.table { EncodeKeepsUse(w.cache, u.cache, job.id, job.key, body, id); }
  }

  lemma DoesRecords(s: Setting, w: World, act: Act, u: World, id: nat)
    requires Does(s, w, act, u)
    ensures RecordStep(s, w, act, u, id)
  {
    hide Does, RecordStep;
    match act
    case Track(_) => TrackRecords(s, w, act, u, id);
    case StartGet(_, _, _, _, _) => StartGetRecords(s, w, act, u, id);
    case FinishGet(_, _, _, _, _, _) => FinishGetRecords(s, w, act, u, id);
    case StartEncode(_, _, _) => StartEncodeRecords(s, w, act, u, id);
    case FinishEncode(_, _) => FinishEncodeRecords(s, w, act, u, id);
  }

  lemma TrackRecords(s: Setting, w: World, act: Act, u: World, id: nat)
    requires Does(s, w, act, u) && act.Track?
    ensures RecordStep(s, w, act, u, id)
  {
    hide LookedUp, Builds;
  }

  // ---------- whole histories ----------

  /**
   Act built is the one that built the record held under the identity in worlds[i]; act used is the last one before
   that world which built it or handed it out.
   */
  ghost predicate Remembers(s: Setting, worlds: seq<World>, acts: seq<Act>, i: nat, id: nat, built: nat, used: nat)
    requires i < |worlds| && i <= |acts|
  {
    && built <= used < i && id in worlds[i].cache.table
    && Builds(s, worlds[built], acts[built], id, worlds[i].cache.table[id])
    && Uses(s, worlds[used], acts[used], id) && worlds[i].cache.table[id].lastUsed == ClockOf(acts[used])
    && forall l :: used < l < i ==> !Uses(s, worlds[l], acts[l], id)
  }

  lemma BuildsSame(s: Setting, w: World, act: Act, id: nat, e: Entry, f: Entry)
    requires Builds(s, w, act, id, e) && SameRecord(e, f)
    ensures Builds(s, w, act, id, f)
  {
  }

  /** Every record was built by one get of the history; it remembers its clock and the clock of its last use. */
  lemma {:induction false} RecordsRemember(s: Setting, worlds: seq<World>, acts: seq<Act>, i: nat, id: nat)
    returns (built: nat, used: nat)
    requires History(s, worlds, acts) && i < |worlds| && id in worlds[i].cache.table
    ensures i <= |acts| && Remembers(s, worlds, acts, i, id, built, used)
  {
    hide Does, Builds, Uses, SameRecord;
    HistoryStep(s, worlds, acts, i);
    built, used := 0, 0;
    if i > 0 {
      DoesRecords(s, worlds[i - 1], acts[i - 1], worlds[i], id);
      if id in worlds[i - 1].cache.table {
        built, used := RecordsRemember(s, worlds, acts, i - 1, id);
        BuildsSame(s, worlds[built], acts[built], id, worlds[i - 1].cache.table[id], worlds[i].cache.table[id]);
        if Uses(s, worlds[i - 1], acts[i - 1], id) { used := i - 1; }
      } else {
        built, used := i - 1, i - 1;
      }
    }
  }

  /**
   In every history a get hits a record exactly when it is listed and the version found the height with its evidence or,
   where coalescing is allowed, the boundary is the same and the get that built the record finished less than a quarter
   of a second before.
   */
  lemma HitsExactly(s: Setting, worlds: seq<World>, acts: seq<Act>, i: nat, h: int, at: nat, allowCoalesce: bool,
        now: int, id: nat)
    returns (built: nat, used: nat)
    requires History(s, worlds, acts) && i < |worlds| && at <= |worlds[i].run|
    requires ListsRecord(worlds[i].cache, h, id)
    ensures i <= |acts| && Remembers(s, worlds, acts, i, id, built, used)
    ensures var e, v := worlds[i].cache.table[id], VersionAt(s.cfg, worlds[i].run, at, h);
      LookedUp(s, worlds[i], h, at, allowCoalesce, now).found == Hit(id) <==>
        v.header.found
        && (e.evidence == v.evidence
          || (allowCoalesce && SameBoundary(e, v) && now - ClockOf(acts[built]) < 250_000_000))
  {
    built, used := RecordsRemember(s, worlds, acts, i, id);
    HistoryOk(s, worlds, acts, i);
    WorldParts(s, worlds[i]);
    CacheParts(worlds[i].cache);
    assert Indexed(worlds[i].cache.table, worlds[i].cache.entries);
    LookupExactly(worlds[i].cache, h, VersionAt(s.cfg, worlds[i].run, at, h), allowCoalesce, now);
    hide History, WorldOk, Lookup, VersionAt, CacheOk, Uses, SameBoundary;
  }

  // ---------- publishing ----------

  /** If the record used last went, so did everything else. */
  lemma LastUsedGoesLast(c: Cache, d: Cache, h: int)
    requires Trimming(c, d) && h in c.entries
    requires forall g :: g in c.entries && g != h ==> UsedAt(c, g) < UsedAt(c, h)
    ensures h in d.entries || d.entries == map[]
  {
    hide Balanced, WithinWith;
    forall g | g in d.entries ensures h in d.entries {
      if h !in d.entries { OlderGoesFirst(c, d, h, g); }
    }
    if h !in d.entries { assert d.entries.Keys == {}; }
  }

  lemma OlderGoesFirst(c: Cache, d: Cache, h: int, g: int)
    requires Indexed(c.table, c.entries) && OldestWent(c, d) && h in c.entries && g in c.entries
    requires h !in d.entries && g in d.entries
    ensures UsedAt(c, h) <= UsedAt(c, g)
  {
  }

  /** The record used last stays, unless it alone is over the bounds. */
  lemma NewestStays(c: Cache, d: Cache, h: int)
    requires TrimmedTo(c, d) && h in c.entries
    requires forall g :: g in c.entries ==> c.entries[g] in c.table && c.table[c.entries[g]].size <= 0x400_0000
    requires forall g :: g in c.entries && g != h ==> UsedAt(c, g) < UsedAt(c, h)
    ensures h in d.entries
  {
    LastUsedGoesLast(c, d, h);
    assert Balanced(d)
      && (d.entries != c.entries ==> exists g :: g in c.entries && g !in d.entries && !WithinWith(c, d, g));
    hide Balanced, Trimming, Within;
    if d.entries == map[] { NothingListed(d); }
  }

  lemma NothingListed(d: Cache)
    requires Balanced(d) && d.entries == map[]
    ensures d.bytes == 0
  {
  }

  /** Trimming removes nothing from a cache that is within its bounds. */
  lemma WithinIsKept(c: Cache, d: Cache)
    requires TrimmedTo(c, d) && Balanced(c) && Within(c)
    ensures d.entries == c.entries
  {
    if d.entries != c.entries {
      var g :| g in c.entries && g !in d.entries && !WithinWith(c, d, g);
      KeptBytes(c, d, g);
    }
  }

  ghost predicate NoDebts(table: map<nat, Entry>, entries: map<int, nat>)
  {
    forall h :: h in entries ==> entries[h] in table && table[entries[h]].size >= 0
  }

  /** Fewer of the same records charge no more. */
  lemma TotalMonotone(table: map<nat, Entry>, some: map<int, nat>, all: map<int, nat>)
    requires NoDebts(table, all) && some.Keys <= all.Keys && forall h :: h in some ==> some[h] == all[h]
    ensures Total(table, some) <= Total(table, all) && |some| <= |all|
  {
    forall h | h in some.Keys ensures Sizes(table, some)(h) == Sizes(table, all)(h) { }
    forall h | h in all.Keys ensures Sizes(table, all)(h) >= 0 { }
    hide Sizes, Sum;
    SumAgree(some.Keys, Sizes(table, some), Sizes(table, all));
    SumAtMost(some.Keys, all.Keys, Sizes(table, all));
    SubsetSize(some.Keys, all.Keys);
    assert |some| == |some.Keys| && |all| == |all.Keys|;
  }

  lemma OneOfTotal(table: map<nat, Entry>, entries: map<int, nat>, g: int)
    requires NoDebts(table, entries) && g in entries
    ensures table[entries[g]].size <= Total(table, entries)
  {
    TotalWith(table, map[], g, entries[g]);
    assert Total(table, map[]) == 0;
    hide Total;
    TotalMonotone(table, map[][g := entries[g]], entries);
  }

  lemma KeptBytes(c: Cache, d: Cache, g: int)
    requires Balanced(c) && Balanced(d) && d.table == c.table && g in c.entries && g !in d.entries
    requires d.entries.Keys <= c.entries.Keys && forall h :: h in d.entries ==> d.entries[h] == c.entries[h]
    ensures d.bytes + c.table[c.entries[g]].size <= c.bytes && |d.entries| + 1 <= |c.entries|
  {
    hide Total;
    var more := d.entries[g := c.entries[g]];
    TotalWith(d.table, d.entries, g, c.entries[g]);
    assert more.Keys == d.entries.Keys + {g};
    assert |more| == |more.Keys| && |d.entries| == |d.entries.Keys|;
    TotalMonotone(c.table, more, c.entries);
  }

  lemma InsertedListing(c: Cache, h: int, id: nat, e: Entry)
    requires Balanced(c) && id !in c.table
    ensures var all := Insert(c, h, id, e);
      && all.entries == (c.entries - {h})[h := id] && all.table == c.table[id := e]
      && all.flights == c.flights
  {
    RemoveKeepsBalance(c, h);
  }

  lemma InsertedUses(c: Cache, h: int, id: nat, e: Entry, g: int)
    requires Balanced(c) && id !in c.table && g in Insert(c, h, id, e).entries
    ensures var all := Insert(c, h, id, e);
      all.entries[g] in all.table && all.table[all.entries[g]] == (if g == h then e else c.table[c.entries[g]])
      && (g != h ==> g in c.entries)
  {
    InsertedListing(c, h, id, e);
  }

  /** The record a publication lists: a found height, a found report, and at most the whole budget. */
  predicate Fit(built: Option<Entry>, latest: Version)
  {
    built.Some? && latest.header.found && built.value.report.found && built.value.size <= 0x400_0000
  }

  /**
   What finishing a get leaves. A fit record takes the place of the one listed for its height; it stays listed itself
   if it is the most recently used one, and nothing is dropped for it if everything fits the bounds of 64 MiB and 32
   records. Any other outcome leaves the listing as it is. The flight ends either way.
   */
  lemma PublishExactly(c: Cache, d: Cache, h: int, id: nat, built: Option<Entry>, latest: Version)
    requires CacheOk(c) && id !in c.table && PublishedTo(c, d, h, id, built, latest)
    requires built.Some? ==> built.value.height == h && EntryOk(built.value)
    ensures d.flights == c.flights - {h}
    ensures !Fit(built, latest) ==> d.entries == c.entries && d.bytes == c.bytes
    ensures Fit(built, latest) ==>
      var all := (c.entries - {h})[h := id];
      && d.entries.Keys <= all.Keys && (forall g :: g in d.entries ==> d.entries[g] == all[g])
      && ((forall g :: g in c.entries && g != h ==> UsedAt(c, g) < built.value.lastUsed) ==> h in d.entries)
      && (|all| <= 32 && Insert(c, h, id, built.value).bytes <= 0x400_0000 ==> d.entries == all)
  {
    if Fit(built, latest) {
      var e := built.value;
      var all := Insert(c, h, id, e);
      CacheParts(c);
      EntrySizeNonNegative(e);
      InsertKeepsBalance(c, h, id, e);
      InsertedListing(c, h, id, e);
      var mid :| TrimmedTo(all, mid) && d == mid.(flights := mid.flights - {h});
      TrimmedEntries(all, mid);
      TrimKeepsTable(all, mid);
      PublishedNewest(c, mid, h, id, e);
      if Within(all) { WithinIsKept(all, mid); }
    }
    hide CacheOk, TrimmedTo, Insert, EntryOk;
  }

  lemma SizesFit(c: Cache, g: int)
    requires CacheOk(c) && g in c.entries
    ensures c.entries[g] in c.table && c.table[c.entries[g]].size <= 0x400_0000
  {
    hide Total, EntriesOk;
    OneOfTotal(c.table, c.entries, g);
  }

  lemma PublishedNewest(c: Cache, mid: Cache, h: int, id: nat, e: Entry)
    requires CacheOk(c) && id !in c.table && e.height == h && EntryOk(e) && e.size <= 0x400_0000
    requires TrimmedTo(Insert(c, h, id, e), mid)
    ensures (forall g :: g in c.entries && g != h ==> c.entries[g] in c.table && UsedAt(c, g) < e.lastUsed)
      ==> h in mid.entries
  {
    var all := Insert(c, h, id, e);
    CacheParts(c);
    InsertedListing(c, h, id, e);
    if forall g :: g in c.entries && g != h ==> c.entries[g] in c.table && UsedAt(c, g) < e.lastUsed {
      forall g | g in all.entries
        ensures all.entries[g] in all.table && all.table[all.entries[g]].size <= 0x400_0000
          && (g != h ==> UsedAt(all, g) < UsedAt(all, h))
      {
        InsertedUses(c, h, id, e, g);
        InsertedUses(c, h, id, e, h);
        if g != h { SizesFit(c, g); }
      }
      hide TrimmedTo, CacheOk, Insert;
      NewestStays(all, mid, h);
    }
  }

  // ---------- encoding ----------

  /**
   A request for a variant is answered from the store exactly when the record holds one under its key; else it joins the
   encoding of that key if one is under way, and begins it if not. Other keys and other records play no part.
   */
  lemma VariantsExactly(c: Cache, id: nat, key: string)
    requires id in c.table && EntryOk(c.table[id])
    ensures var (d, found) := VariantLookup(c, id, key); var e := c.table[id];
      && (found.Stored? <==> key in e.variants) && (found.Stored? ==> found.body == e.variants[key])
      && (found == JoinVariant <==> key in e.variantFlights)
      && (found == Encode ==>
            d == c.(table := c.table[id := e.(variantFlights := e.variantFlights + {key})]))
      && (found != Encode ==> d == c)
  {
  }

  /**
   What finishing an encoding leaves: a cached record holds the body under its key beside its other variants, or alone
   if it had eight of them; a failed encoding, or a record that left the cache, stores nothing. The flight ends.
   */
  lemma EncodeExactly(c: Cache, d: Cache, id: nat, key: string, body: Option<string>)
    requires id in c.table && EncodedTo(c, d, id, key, body)
    ensures id in d.table && d.table[id].variantFlights == c.table[id].variantFlights - {key}
    ensures d.table[id].variants
      == if body.Some? && IsCached(c, id)
        then (if |c.table[id].variants| >= 8 then map[] else c.table[id].variants)[key := body.value]
        else c.table[id].variants
  {
    if body.Some? && IsCached(c, id) {
      var mid :| TrimmedTo(Store(c, id, key, body.value), mid) && id in mid.table && d == Land(mid, id, key);
      TrimKeepsTable(Store(c, id, key, body.value), mid);
      hide TrimmedTo, VariantBytes;
    } else {
      hide TrimmedTo, VariantBytes, Store;
    }
  }
}
