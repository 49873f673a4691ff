/**
 The report cache at work: callers of get and encoded interleave with each other and with the tracker, one
 locked section or one tracker call at a time.
 */
module CacheRuns {
  import opened Common
  import opened TrackerTypes
  import opened Archive
  import opened Tracker
  import opened TrackerRuns
  import opened Snapshot
  import opened SnapshotLaws
  import opened RoundsCache
  import opened CacheViews

  /** A get between its two locked sections: the height it builds, and when it read its version. */
  datatype Task = Task(height: int, at: nat)

  /** An encoding between its two locked sections. */
  datatype Job = Job(id: nat, key: string, req: Request)

  datatype World = World(run: seq<Timed>, cache: Cache, building: map<nat, Task>, encoding: map<nat, Job>)

  /** What is the same for every world: the configuration, the server's epoch, the encoder. */
  datatype Setting = Setting(cfg: Config, epoch: string, marshal: Marshal)

  datatype Act =
    | Track(e: Timed)
    | StartGet(caller: nat, height: int, at: nat, allowCoalesce: bool, now: int)
    | FinishGet(caller: nat, id: nat, failed: bool, captured: nat, latest: nat, now: int)
    | StartEncode(caller: nat, id: nat, req: Request)
    | FinishEncode(caller: nat, failed: bool)

  const NEW_WORLD := World([], EMPTY_CACHE, map[], map[])

  ghost function Built(s: Setting, run: seq<Timed>, h: int, captured: nat, now: int): Entry
    requires captured <= |run|
  {
    RevisionsAreNatural(s.cfg, run[..captured], h);
    var report := ReportAt(s.cfg, run, captured, h);
    NewEntry(h, EvidenceOf(Run(s.cfg, run[..captured]), h), captured, report, s.marshal.full(report), now)
  }

  ghost function LookedUp(s: Setting, w: World, h: int, at: nat, allowCoalesce: bool, now: int): Looked
    requires at <= |w.run|
  {
    Lookup(w.cache, h, VersionAt(s.cfg, w.run, at, h), allowCoalesce, now)
  }

  /** u follows from w by one act. */
  ghost predicate Does(s: Setting, w: World, act: Act, u: World)
  {
    match act
    case Track(e) => u == w.(run := w.run + [e])
    case StartGet(caller, h, at, allowCoalesce, now) =>
      && caller !in w.building && at <= |w.run|
      && var r := LookedUp(s, w, h, at, allowCoalesce, now);
      u == w.(cache := r.cache, building := if r.found == Build then w.building[caller := Task(h, at)] else w.building)
    case FinishGet(caller, id, failed, captured, latest, now) =>
      && caller in w.building && w.building[caller].at <= captured <= latest <= |w.run| && id !in w.cache.table
      && var h := w.building[caller].height;
      && PublishedTo(w.cache, u.cache, h, id, if failed then None
        else Some(Built(s, w.run, h, captured, now)), VersionAt(s.cfg, w.run, latest, h))
      && u == w.(cache := u.cache, building := w.building - {caller})
    case StartEncode(caller, id, req) =>
      && caller !in w.encoding && id in w.cache.table && Paired(s.cfg, w.run, w.cache.table[id], req.v)
      && var key := ViewKey(s.epoch, w.cache.table[id], req);
      && var (cache, found) := VariantLookup(w.cache, id, key);
      u == w.(cache := cache, encoding := if found == Encode then w.encoding[caller := Job(id, key, req)]
        else w.encoding)
    case FinishEncode(caller, failed) =>
      && caller in w.encoding && w.encoding[caller].id in w.cache.table
      && var job := w.encoding[caller];
      && EncodedTo(w.cache, u.cache, job.id, job.key, if failed then None
        else Some(BodyOf(s.marshal, s.epoch, w.cache.table[job.id], job.req)))
      && u == w.(cache := u.cache, encoding := w.encoding - {caller})
  }

  // ---------- invariant ----------

  /** What never changes in a record. */
  predicate SameRecord(e: Entry, f: Entry)
  {
    e.height == f.height && e.evidence == f.evidence && e.captured == f.captured && e.report == f.report
    && e.builtAt == f.builtAt && e.base == f.base
  }

  ghost predicate AllGenuine(s: Setting, w: World)
  {
    forall id :: id in w.cache.table ==> Genuine(s.cfg, w.run, w.cache.table[id])
  }

  /** The heights in flight are those being built, each by one caller. */
  ghost predicate SingleFlight(w: World)
  {
    && (forall a :: a in w.building ==> w.building[a].height in w.cache.flights)
    && (forall h :: h in w.cache.flights ==> exists a :: a in w.building && w.building[a].height == h)
    && (forall a, b :: a in w.building && b in w.building && w.building[a].height == w.building[b].height ==> a == b)
  }

  /** Each encoding holds the flight of its own key, alone. */
  ghost predicate SingleEncoding(s: Setting, w: World)
  {
    && (forall a :: a in w.encoding ==> JobOk(s, w, w.encoding[a]))
    && (forall a, b ::
      a in w.encoding && b in w.encoding && w.encoding[a].id == w.encoding[b].id
      && w.encoding[a].key == w.encoding[b].key
      ==> a == b)
  }

  ghost predicate JobOk(s: Setting, w: World, job: Job)
  {
    && job.id in w.cache.table && job.key in w.cache.table[job.id].variantFlights
    && job.key == ViewKey(s.epoch, w.cache.table[job.id], job.req)
    && Paired(s.cfg, w.run, w.cache.table[job.id], job.req.v)
  }

  ghost predicate Bodied(s: Setting, run: seq<Timed>, e: Entry, key: string, body: string, req: Request)
  {
    Paired(s.cfg, run, e, req.v) && key == ViewKey(s.epoch, e, req) && body == BodyOf(s.marshal, s.epoch, e, req)
  }

  /** A stored variant is the body of some request that get allowed. */
  ghost predicate VariantsOk(s: Setting, run: seq<Timed>, e: Entry)
  {
    forall key :: key in e.variants ==> exists req :: Bodied(s, run, e, key, e.variants[key], req)
  }

  ghost predicate AllVariantsOk(s: Setting, w: World)
  {
    forall id :: id in w.cache.table ==> VariantsOk(s, w.run, w.cache.table[id])
  }

  /** Only reports of heights that were found are listed. */
  predicate ListedFound(c: Cache)
  {
    forall h :: h in c.entries ==> c.entries[h] in c.table && c.table[c.entries[h]].report.found
  }

  ghost predicate WorldOk(s: Setting, w: World)
  {
    CacheOk(w.cache) && AllGenuine(s, w) && SingleFlight(w) && SingleEncoding(s, w) && AllVariantsOk(s, w)
      && ListedFound(w.cache)
  }

  lemma NewWorldOk(s: Setting)
    ensures WorldOk(s, NEW_WORLD)
  {
    assert Sum({}, Sizes(map[], map[])) == 0;
  }

  // ---------- a longer run, the same record ----------

  lemma GenuineLater(cfg: Config, run: seq<Timed>, x: Timed, e: Entry)
    requires Genuine(cfg, run, e)
    ensures Genuine(cfg, run + [x], e)
  {
    assert (run + [x])[..e.captured] == run[..e.captured];
    hide Run, FullReport;
  }

  lemma PairedLater(cfg: Config, run: seq<Timed>, x: Timed, e: Entry, v: Version)
    requires Paired(cfg, run, e, v)
    ensures Paired(cfg, run + [x], e, v)
  {
    assert (run + [x])[..v.at] == run[..v.at];
    hide Run, HeaderOf;
  }

  lemma SameRecordSame(s: Setting, run: seq<Timed>, e: Entry, f: Entry)
    requires SameRecord(e, f)
    ensures Genuine(s.cfg, run, e) == Genuine(s.cfg, run, f)
    ensures forall v :: Paired(s.cfg, run, e, v) == Paired(s.cfg, run, f, v)
    ensures forall req ::
      ViewKey(s.epoch, e, req) == ViewKey(s.epoch, f, req)
      && BodyOf(s.marshal, s.epoch, e, req) == BodyOf(s.marshal, s.epoch, f, req)
  {
    hide Run, FullReport, HeaderOf, CompactOf, CompactKey, FullKey, WithCatalogue;
  }

  lemma SameVariants(s: Setting, run: seq<Timed>, e: Entry, f: Entry)
    requires SameRecord(e, f) && f.variants == e.variants && VariantsOk(s, run, e)
    ensures VariantsOk(s, run, f)
  {
    SameRecordSame(s, run, e, f);
    hide SameRecord, Paired, ViewKey, BodyOf;
    forall key | key in f.variants ensures exists req :: Bodied(s, run, f, key, f.variants[key], req) {
      var req :| Bodied(s, run, e, key, e.variants[key], req);
      assert Bodied(s, run, f, key, f.variants[key], req);
    }
  }

  lemma LongerRunVariants(s: Setting, run: seq<Timed>, x: Timed, e: Entry)
    requires VariantsOk(s, run, e)
    ensures VariantsOk(s, run + [x], e)
  {
    hide Paired, ViewKey, BodyOf;
    forall key | key in e.variants ensures exists req :: Bodied(s, run + [x], e, key, e.variants[key], req) {
      var req :| Bodied(s, run, e, key, e.variants[key], req);
      PairedLater(s.cfg, run, x, e, req.v);
      assert Bodied(s, run + [x], e, key, e.variants[key], req);
    }
  }

  lemma TrackKeepsWorld(s: Setting, w: World, x: Timed)
    requires WorldOk(s, w)
    ensures WorldOk(s, w.(run := w.run + [x]))
  {
    var u := w.(run := w.run + [x]);
    hide CacheOk, Genuine, VariantsOk, Paired, ViewKey;
    forall id | id in w.cache.table
      ensures Genuine(s.cfg, u.run, w.cache.table[id]) && VariantsOk(s, u.run, w.cache.table[id]) {
      GenuineLater(s.cfg, w.run, x, w.cache.table[id]);
      LongerRunVariants(s, w.run, x, w.cache.table[id]);
    }
    forall a | a in w.encoding ensures JobOk(s, u, w.encoding[a]) {
      assert JobOk(s, w, w.encoding[a]);
      PairedLater(s.cfg, w.run, x, w.cache.table[w.encoding[a].id], w.encoding[a].req.v);
    }
  }

  // ---------- sections that leave variants alone ----------

  predicate SameVariantsIn(e: Entry, f: Entry)
  {
    SameRecord(e, f) && f.variants == e.variants && f.variantFlights == e.variantFlights
  }

  /** d has the records of c with their variants and flights, and maybe a new record without any. */
  ghost predicate Untouched(c: Cache, d: Cache)
  {
    && (forall id :: id in c.table ==> id in d.table && SameVariantsIn(c.table[id], d.table[id]))
    && (forall id ::
      id in d.table && id !in c.table ==> d.table[id].variants == map[] && d.table[id].variantFlights == {})
  }

  lemma UntouchedKeepsEncoding(s: Setting, w: World, d: Cache, building: map<nat, Task>)
    requires SingleEncoding(s, w) && Untouched(w.cache, d)
    ensures SingleEncoding(s, w.(cache := d, building := building))
  {
    var u := w.(cache := d, building := building);
    hide SameRecord, Paired, ViewKey;
    forall a | a in w.encoding ensures JobOk(s, u, w.encoding[a]) {
      var job := w.encoding[a];
      assert JobOk(s, w, job);
      SameRecordSame(s, w.run, w.cache.table[job.id], d.table[job.id]);
    }
  }

  lemma UntouchedKeepsVariants(s: Setting, w: World, d: Cache, building: map<nat, Task>)
    requires AllVariantsOk(s, w) && Untouched(w.cache, d)
    ensures AllVariantsOk(s, w.(cache := d, building := building))
  {
    hide SameRecord, Bodied;
    forall id | id in d.table ensures VariantsOk(s, w.run, d.table[id]) {
      if id in w.cache.table { SameVariants(s, w.run, w.cache.table[id], d.table[id]); }
    }
  }

  lemma UntouchedKeepsGenuine(s: Setting, w: World, d: Cache, building: map<nat, Task>)
    requires AllGenuine(s, w) && Untouched(w.cache, d)
      && forall id :: id in d.table && id !in w.cache.table ==> Genuine(s.cfg, w.run, d.table[id])
    ensures AllGenuine(s, w.(cache := d, building := building))
  {
    hide SameRecord, Genuine;
    forall id | id in d.table ensures Genuine(s.cfg, w.run, d.table[id]) {
      if id in w.cache.table { SameRecordSame(s, w.run, w.cache.table[id], d.table[id]); }
    }
  }

  /** d lists some of what c lists, and the records keep their reports. */
  lemma ListedStays(c: Cache, d: Cache)
    requires ListedFound(c) && d.entries.Keys <= c.entries.Keys
      && forall h :: h in d.entries ==> d.entries[h] == c.entries[h]
    requires forall id :: id in c.table ==> id in d.table && d.table[id].report == c.table[id].report
    ensures ListedFound(d)
  {
  }

  // ---------- get ----------

  lemma LookupListed(c: Cache, h: int, v: Version, allowCoalesce: bool, now: int)
    requires ListedFound(c)
    ensures ListedFound(Lookup(c, h, v, allowCoalesce, now).cache)
  {
    LookupCases(c, h, v, allowCoalesce, now);
    hide Lookup, Servable, Serves;
    ListedStays(c, Lookup(c, h, v, allowCoalesce, now).cache);
  }

  lemma PublishListed(c: Cache, d: Cache, h: int, id: nat, built: Option<Entry>, latest: Version)
    requires ListedFound(c) && id !in c.table && PublishedTo(c, d, h, id, built, latest)
    ensures ListedFound(d)
  {
    if built.Some? && Publishes(built.value, latest) {
      var mid :| TrimmedTo(Insert(c, h, id, built.value), mid) && d == mid.(flights := mid.flights - {h});
      InsertListed(c, h, id, built.value);
      TrimListed(Insert(c, h, id, built.value), mid);
      hide TrimmedTo, Insert;
    } else {
      hide TrimmedTo, Insert;
    }
  }

  lemma InsertListed(c: Cache, h: int, id: nat, e: Entry)
    requires ListedFound(c) && id !in c.table && e.report.found
    ensures ListedFound(Insert(c, h, id, e))
  {
  }

  lemma TrimListed(c: Cache, d: Cache)
    requires ListedFound(c) && TrimmedTo(c, d)
    ensures ListedFound(d)
  {
    assert d.table == c.table;
    hide Balanced, OldestWent, Within, Indexed;
    ListedStays(c, d);
  }

  lemma LookupUntouched(c: Cache, h: int, v: Version, allowCoalesce: bool, now: int)
    ensures var r := Lookup(c, h, v, allowCoalesce, now);
      && Untouched(c, r.cache) && r.cache.table.Keys == c.table.Keys
      && (r.found == Build ==> h !in c.flights && r.cache.flights == c.flights + {h})
      && (r.found != Build ==> r.cache.flights == c.flights)
  {
    LookupCases(c, h, v, allowCoalesce, now);
    hide Lookup, Servable, Serves;
  }

  lemma StartKeepsFlight(w: World, caller: nat, task: Task, d: Cache)
    requires SingleFlight(w) && caller !in w.building && task.height !in w.cache.flights
      && d.flights == w.cache.flights + {task.height}
    ensures SingleFlight(w.(cache := d, building := w.building[caller := task]))
  {
    var u := w.(cache := d, building := w.building[caller := task]);
    forall h | h in d.flights ensures exists a :: a in u.building && u.building[a].height == h {
      if h == task.height {
        assert u.building[caller].height == h;
      } else {
        var a :| a in w.building && w.building[a].height == h;
        assert u.building[a].height == h;
      }
    }
  }

  lemma SameFlights(w: World, d: Cache)
    requires SingleFlight(w) && d.flights == w.cache.flights
    ensures SingleFlight(w.(cache := d))
  {
  }

  lemma StartGetKeepsWorld(s: Setting, w: World, u: World, caller: nat, h: int, at: nat, allowCoalesce: bool, now: int)
    requires WorldOk(s, w) && Does(s, w, StartGet(caller, h, at, allowCoalesce, now), u)
    ensures WorldOk(s, u)
  {
    var v := VersionAt(s.cfg, w.run, at, h);
    var r := Lookup(w.cache, h, v, allowCoalesce, now);
    LookupKeepsOk(w.cache, h, v, allowCoalesce, now);
    LookupUntouched(w.cache, h, v, allowCoalesce, now);
    LookupListed(w.cache, h, v, allowCoalesce, now);
    hide CacheOk, AllGenuine, SingleFlight, SingleEncoding, AllVariantsOk, Untouched, Lookup, ListedFound;
    UntouchedKeepsGenuine(s, w, r.cache, u.building);
    UntouchedKeepsVariants(s, w, r.cache, u.building);
    UntouchedKeepsEncoding(s, w, r.cache, u.building);
    if r.found == Build { StartKeepsFlight(w, caller, Task(h, at), r.cache); } else { SameFlights(w, r.cache); }
  }

  lemma PublishedFacts(c: Cache, d: Cache, h: int, id: nat, built: Option<Entry>, latest: Version)
    requires PublishedTo(c, d, h, id, built, latest)
    ensures d.flights == c.flights - {h}
    ensures d.table == if built.Some? then c.table[id := built.value] else c.table
  {
    if built.Some? && Publishes(built.value, latest) {
      var mid :| TrimmedTo(Insert(c, h, id, built.value), mid) && d == mid.(flights := mid.flights - {h});
      InsertTable(c, h, id, built.value);
      TrimKeepsTable(Insert(c, h, id, built.value), mid);
      hide TrimmedTo, Insert;
    } else {
      hide TrimmedTo, Insert;
    }
  }

  lemma PublishedUntouched(c: Cache, d: Cache, id: nat, built: Option<Entry>)
    requires id !in c.table && d.table == if built.Some? then c.table[id := built.value] else c.table
    requires built.Some? ==> built.value.variants == map[] && built.value.variantFlights == {}
    ensures Untouched(c, d) && forall x :: x in d.table && x !in c.table ==> built == Some(d.table[x])
  {
  }

  lemma BuiltIsGenuine(s: Setting, run: seq<Timed>, h: int, captured: nat, now: int)
    requires captured <= |run|
    ensures Genuine(s.cfg, run, Built(s, run, h, captured, now)) && EntryOk(Built(s, run, h, captured, now))
    ensures Built(s, run, h, captured, now).height == h
    ensures Built(s, run, h, captured, now).variants == map[] && Built(s, run, h, captured, now).variantFlights == {}
  {
    hide Run, FullReport;
    assert VariantBytes(map[]) == 0;
  }

  lemma FinishKeepsFlight(w: World, caller: nat, d: Cache)
    requires SingleFlight(w) && caller in w.building && d.flights == w.cache.flights - {w.building[caller].height}
    ensures SingleFlight(w.(cache := d, building := w.building - {caller}))
  {
    var u := w.(cache := d, building := w.building - {caller});
    forall h | h in d.flights ensures exists a :: a in u.building && u.building[a].height == h {
      var a :| a in w.building && w.building[a].height == h;
      assert a != caller && u.building[a].height == h;
    }
  }

  lemma FinishGetKeepsWorld(s: Setting, w: World, u: World, caller: nat, id: nat, failed: bool, captured: nat,
        latest: nat, now: int)
    requires WorldOk(s, w) && Does(s, w, FinishGet(caller, id, failed, captured, latest, now), u)
    ensures WorldOk(s, u)
  {
    var h := w.building[caller].height;
    var e := Built(s, w.run, h, captured, now);
    var built, v := if failed then None else Some(e), VersionAt(s.cfg, w.run, latest, h);
    BuiltIsGenuine(s, w.run, h, captured, now);
    assert u == w.(cache := u.cache, building := u.building) && u.building == w.building - {caller};
    assert PublishedTo(w.cache, u.cache, h, id, built, v);
    hide CacheOk, AllGenuine, SingleFlight, SingleEncoding, AllVariantsOk, Genuine, EntryOk, PublishedTo, Built,
      VersionAt, Does, ListedFound;
    PublishKeepsOk(w.cache, u.cache, h, id, built, v);
    PublishListed(w.cache, u.cache, h, id, built, v);
    PublishedFacts(w.cache, u.cache, h, id, built, v);
    PublishedUntouched(w.cache, u.cache, id, built);
    hide Untouched;
    UntouchedKeepsGenuine(s, w, u.cache, u.building);
    UntouchedKeepsVariants(s, w, u.cache, u.building);
    UntouchedKeepsEncoding(s, w, u.cache, u.building);
    FinishKeepsFlight(w, caller, u.cache);
  }

  // ---------- encoded ----------

  /** One record may have changed, in its variants and flights only. */
  ghost predicate OnlyRecord(c: Cache, d: Cache, id: nat)
  {
    && d.flights == c.flights && d.table.Keys == c.table.Keys && id in c.table
    && (forall x :: x in c.table && x != id ==> d.table[x] == c.table[x])
    && SameRecord(c.table[id], d.table[id])
  }

  lemma OnlyRecordKeepsGenuine(s: Setting, w: World, d: Cache, id: nat, encoding: map<nat, Job>)
    requires AllGenuine(s, w) && OnlyRecord(w.cache, d, id)
    ensures AllGenuine(s, w.(cache := d, encoding := encoding))
  {
    hide SameRecord, Genuine;
    GenuineSame(s, w.run, w.cache.table[id], d.table[id]);
    assert forall x :: x in d.table ==> x in w.cache.table;
  }

  lemma GenuineSame(s: Setting, run: seq<Timed>, e: Entry, f: Entry)
    requires SameRecord(e, f)
    ensures Genuine(s.cfg, run, e) == Genuine(s.cfg, run, f)
  {
    hide Run, FullReport;
  }

  lemma OnlyRecordKeepsVariants(s: Setting, w: World, d: Cache, id: nat, encoding: map<nat, Job>)
    requires AllVariantsOk(s, w) && OnlyRecord(w.cache, d, id) && VariantsOk(s, w.run, d.table[id])
    ensures AllVariantsOk(s, w.(cache := d, encoding := encoding))
  {
    hide SameRecord, VariantsOk;
    assert forall x :: x in d.table ==> x in w.cache.table;
  }

  /** A job survives a change of one record that keeps its own flight. */
  lemma JobSurvives(s: Setting, w: World, d: Cache, id: nat, encoding: map<nat, Job>, job: Job)
    requires JobOk(s, w, job) && OnlyRecord(w.cache, d, id)
    requires job.id == id ==> job.key in d.table[id].variantFlights
    ensures JobOk(s, w.(cache := d, encoding := encoding), job)
  {
    SameRecordSame(s, w.run, w.cache.table[id], d.table[id]);
    hide SameRecord, Paired, ViewKey;
  }

  lemma LookupVariantFacts(c: Cache, id: nat, key: string)
    requires id in c.table
    ensures var (d, found) := VariantLookup(c, id, key);
      && OnlyRecord(c, d, id) && d.table[id].variants == c.table[id].variants
        && c.table[id].variantFlights <= d.table[id].variantFlights
      && (found == Encode ==> key in d.table[id].variantFlights && key !in c.table[id].variantFlights)
  {
    var (d, found) := VariantLookup(c, id, key);
    assert d.table.Keys == c.table.Keys;
  }

  lemma JobAt(s: Setting, w: World, a: nat)
    requires SingleEncoding(s, w) && a in w.encoding
    ensures JobOk(s, w, w.encoding[a])
  {
  }

  /** Another job with a key of its own joins. */
  lemma JobJoins(s: Setting, w: World, encoding: map<nat, Job>, caller: nat, job: Job)
    requires SingleEncoding(s, w) && caller !in w.encoding && encoding == w.encoding[caller := job]
    requires JobOk(s, w.(encoding := encoding), job)
    requires forall a :: a in w.encoding ==> !(w.encoding[a].id == job.id && w.encoding[a].key == job.key)
    ensures SingleEncoding(s, w.(encoding := encoding))
  {
    hide Paired, ViewKey;
    forall a | a in encoding ensures JobOk(s, w.(encoding := encoding), encoding[a]) {
      if a != caller { JobAt(s, w, a); }
    }
  }

  lemma LookedUpKeepsJobs(s: Setting, w: World, d: Cache, id: nat)
    requires SingleEncoding(s, w) && OnlyRecord(w.cache, d, id)
      && w.cache.table[id].variantFlights <= d.table[id].variantFlights
    ensures SingleEncoding(s, w.(cache := d))
  {
    hide SameRecord, JobOk;
    forall a | a in w.encoding ensures JobOk(s, w.(cache := d), w.encoding[a]) {
      JobAt(s, w, a);
      JobKeepsFlight(s, w, w.encoding[a]);
      JobSurvives(s, w, d, id, w.encoding, w.encoding[a]);
    }
  }

  lemma StartEncodeKeepsJobs(s: Setting, w: World, u: World, caller: nat, id: nat, req: Request)
    requires SingleEncoding(s, w) && Does(s, w, StartEncode(caller, id, req), u)
    ensures SingleEncoding(s, u)
  {
    var key := ViewKey(s.epoch, w.cache.table[id], req);
    var (d, found) := VariantLookup(w.cache, id, key);
    LookupVariantFacts(w.cache, id, key);
    SameRecordSame(s, w.run, w.cache.table[id], d.table[id]);
    hide SingleEncoding, VariantLookup, ViewKey, Paired, SameRecord;
    LookedUpKeepsJobs(s, w, d, id);
    if found == Encode {
      var job, mid := Job(id, key, req), w.(cache := d);
      forall a | a in w.encoding ensures !(w.encoding[a].id == id && w.encoding[a].key == key) {
        JobAt(s, w, a);
        JobKeepsFlight(s, w, w.encoding[a]);
      }
      assert JobOk(s, mid.(encoding := u.encoding), job);
      JobJoins(s, mid, u.encoding, caller, job);
    }
  }

  /** The parts of the invariant, apart and together. */
  lemma WorldParts(s: Setting, w: World)
    ensures WorldOk(s, w) <==>
      CacheOk(w.cache) && AllGenuine(s, w) && SingleFlight(w) && SingleEncoding(s, w) && AllVariantsOk(s, w)
        && ListedFound(w.cache)
  {
  }

  lemma VariantsAt(s: Setting, w: World, id: nat)
    requires AllVariantsOk(s, w) && id in w.cache.table
    ensures VariantsOk(s, w.run, w.cache.table[id])
  {
  }

  lemma StartEncodeFacts(s: Setting, w: World, u: World, caller: nat, id: nat, req: Request)
    requires Does(s, w, StartEncode(caller, id, req), u)
    ensures id in w.cache.table
    ensures var d := VariantLookup(w.cache, id, ViewKey(s.epoch, w.cache.table[id], req)).0;
      u == w.(cache := d, encoding := u.encoding) && d.entries == w.cache.entries && OnlyRecord(w.cache, d, id)
      && d.table[id].variants == w.cache.table[id].variants && SameRecord(w.cache.table[id], d.table[id])
        && d.flights == w.cache.flights
  {
    LookupVariantFacts(w.cache, id, ViewKey(s.epoch, w.cache.table[id], req));
    hide ViewKey, Paired;
  }

  /** A change of one record that keeps its variants and the listing. */
  lemma RecordKeepsWorld(s: Setting, w: World, d: Cache, id: nat, encoding: map<nat, Job>)
    requires AllGenuine(s, w) && SingleFlight(w) && AllVariantsOk(s, w) && OnlyRecord(w.cache, d, id)
      && VariantsOk(s, w.run, d.table[id])
    ensures AllGenuine(s, w.(cache := d, encoding := encoding)) && SingleFlight(w.(cache := d, encoding := encoding))
    ensures AllVariantsOk(s, w.(cache := d, encoding := encoding))
  {
    FlightsAre(w.cache, d, id);
    hide *;
    OnlyRecordKeepsGenuine(s, w, d, id, encoding);
    OnlyRecordKeepsVariants(s, w, d, id, encoding);
    EncodingKeepsFlight(w, d, encoding);
  }

  lemma ListedOnly(c: Cache, d: Cache, id: nat)
    requires ListedFound(c) && OnlyRecord(c, d, id) && d.entries == c.entries
    ensures ListedFound(d)
  {
  }

  lemma StartEncodeKeepsWorld(s: Setting, w: World, u: World, caller: nat, id: nat, req: Request)
    requires WorldOk(s, w) && Does(s, w, StartEncode(caller, id, req), u)
    ensures WorldOk(s, u)
  {
    hide *;
    WorldParts(s, w);
    WorldParts(s, u);
    StartEncodeFacts(s, w, u, caller, id, req);
    var d := VariantLookup(w.cache, id, ViewKey(s.epoch, w.cache.table[id], req)).0;
    StartEncodeKeepsJobs(s, w, u, caller, id, req);
    VariantLookupKeepsOk(w.cache, id, ViewKey(s.epoch, w.cache.table[id], req));
    VariantsAt(s, w, id);
    OnlyRecordHas(w.cache, d, id);
    SameVariants(s, w.run, w.cache.table[id], d.table[id]);
    RecordKeepsWorld(s, w, d, id, u.encoding);
    ListedOnly(w.cache, d, id);
  }

  lemma OnlyRecordHas(c: Cache, d: Cache, id: nat)
    requires OnlyRecord(c, d, id)
    ensures id in c.table && id in d.table && SameRecord(c.table[id], d.table[id])
  {
  }

  lemma EncodingKeepsFlight(w: World, d: Cache, encoding: map<nat, Job>)
    requires SingleFlight(w) && d.flights == w.cache.flights
    ensures SingleFlight(w.(cache := d, encoding := encoding))
  {
  }

  lemma EncodedFacts(c: Cache, d: Cache, id: nat, key: string, body: Option<string>)
    requires id in c.table && EncodedTo(c, d, id, key, body)
    ensures OnlyRecord(c, d, id) && d.table[id].variantFlights == c.table[id].variantFlights - {key}
    ensures forall k :: k in d.table[id].variants ==>
      (k in c.table[id].variants && d.table[id].variants[k] == c.table[id].variants[k])
        || (k == key && body == Some(d.table[id].variants[k]))
  {
    if body.Some? && IsCached(c, id) {
      var mid :| TrimmedTo(Store(c, id, key, body.value), mid) && id in mid.table && d == Land(mid, id, key);
      TrimKeepsTable(Store(c, id, key, body.value), mid);
      assert d.table.Keys == c.table.Keys;
      hide TrimmedTo, VariantBytes;
    } else {
      assert d.table.Keys == c.table.Keys;
      hide TrimmedTo, VariantBytes, Store;
    }
  }

  lemma NewVariantsOk(s: Setting, run: seq<Timed>, e: Entry, f: Entry, key: string, req: Request)
    requires SameRecord(e, f) && VariantsOk(s, run, e) && Paired(s.cfg, run, e, req.v)
      && key == ViewKey(s.epoch, e, req)
    requires forall k :: k in f.variants ==>
      (k in e.variants && f.variants[k] == e.variants[k])
        || (k == key && f.variants[k] == BodyOf(s.marshal, s.epoch, e, req))
    ensures VariantsOk(s, run, f)
  {
    SameRecordSame(s, run, e, f);
    hide SameRecord, Paired, ViewKey, BodyOf;
    forall k | k in f.variants ensures exists r :: Bodied(s, run, f, k, f.variants[k], r) {
      if k in e.variants && f.variants[k] == e.variants[k] {
        var r :| Bodied(s, run, e, k, e.variants[k], r);
        assert Bodied(s, run, f, k, f.variants[k], r);
      } else {
        assert Bodied(s, run, f, k, f.variants[k], req);
      }
    }
  }

  lemma JobsDiffer(s: Setting, w: World, a: nat, b: nat)
    requires SingleEncoding(s, w) && a in w.encoding && b in w.encoding && a != b
    ensures !(w.encoding[a].id == w.encoding[b].id && w.encoding[a].key == w.encoding[b].key)
  {
    hide JobOk;
  }

  lemma OtherJobSurvives(s: Setting, w: World, d: Cache, caller: nat, a: nat)
    requires SingleEncoding(s, w) && caller in w.encoding && a in w.encoding && a != caller
      && OnlyRecord(w.cache, d, w.encoding[caller].id)
    requires var job := w.encoding[caller];
      d.table[job.id].variantFlights == w.cache.table[job.id].variantFlights - {job.key}
    ensures JobOk(s, w.(cache := d, encoding := w.encoding - {caller}), w.encoding[a])
  {
    hide *;
    var job, other := w.encoding[caller], w.encoding[a];
    JobsDiffer(s, w, a, caller);
    JobAt(s, w, a);
    JobKeepsFlight(s, w, other);
    JobSurvives(s, w, d, job.id, w.encoding - {caller}, other);
  }

  lemma FinishEncodeKeepsJobs(s: Setting, w: World, d: Cache, caller: nat)
    requires SingleEncoding(s, w) && caller in w.encoding && OnlyRecord(w.cache, d, w.encoding[caller].id)
    requires var job := w.encoding[caller];
      job.id in w.cache.table && d.table[job.id].variantFlights == w.cache.table[job.id].variantFlights - {job.key}
    ensures SingleEncoding(s, w.(cache := d, encoding := w.encoding - {caller}))
  {
    hide JobOk, OnlyRecord;
    forall a | a in w.encoding - {caller}
      ensures JobOk(s, w.(cache := d, encoding := w.encoding - {caller}), w.encoding[a]) {
      OtherJobSurvives(s, w, d, caller, a);
    }
  }

  lemma JobKeepsFlight(s: Setting, w: World, job: Job)
    requires JobOk(s, w, job)
    ensures job.id in w.cache.table && job.key in w.cache.table[job.id].variantFlights
  {
  }

  lemma EncodeListed(c: Cache, d: Cache, id: nat, key: string, body: Option<string>)
    requires ListedFound(c) && id in c.table && EncodedTo(c, d, id, key, body)
    ensures ListedFound(d)
  {
    hide *;
    EncodedFacts(c, d, id, key, body);
    EncodedEntries(c, d, id, key, body);
    OnlyRecordReports(c, d, id);
    ListedStays(c, d);
  }

  lemma EncodedEntries(c: Cache, d: Cache, id: nat, key: string, body: Option<string>)
    requires id in c.table && EncodedTo(c, d, id, key, body)
    ensures d.entries.Keys <= c.entries.Keys && forall h :: h in d.entries ==> d.entries[h] == c.entries[h]
  {
    if body.Some? && IsCached(c, id) {
      var mid :| TrimmedTo(Store(c, id, key, body.value), mid) && id in mid.table && d == Land(mid, id, key);
      TrimmedEntries(Store(c, id, key, body.value), mid);
      hide TrimmedTo, EncodedTo, VariantBytes;
    } else {
      hide TrimmedTo, Store, VariantBytes;
    }
  }

  lemma TrimmedEntries(c: Cache, d: Cache)
    requires TrimmedTo(c, d)
    ensures d.entries.Keys <= c.entries.Keys && forall h :: h in d.entries ==> d.entries[h] == c.entries[h]
  {
    hide Balanced, OldestWent, Within, WithinWith, Indexed;
  }

  lemma OnlyRecordReports(c: Cache, d: Cache, id: nat)
    requires OnlyRecord(c, d, id)
    ensures forall x :: x in c.table ==> x in d.table && d.table[x].report == c.table[x].report
  {
  }

  lemma FinishEncodeFacts(s: Setting, w: World, u: World, caller: nat, failed: bool)
    requires Does(s, w, FinishEncode(caller, failed), u) && SingleEncoding(s, w)
    ensures caller in w.encoding && w.encoding[caller].id in w.cache.table
    ensures var job := w.encoding[caller]; var e := w.cache.table[job.id];
      && EncodedTo(w.cache, u.cache, job.id, job.key, if failed then None
        else Some(BodyOf(s.marshal, s.epoch, e, job.req)))
      && u == w.(cache := u.cache, encoding := w.encoding - {caller})
      && job.key in e.variantFlights && Paired(s.cfg, w.run, e, job.req.v) && job.key == ViewKey(s.epoch, e, job.req)
  {
    JobAt(s, w, caller);
    hide EncodedTo, BodyOf, ViewKey, Paired, SingleEncoding;
  }

  lemma FinishEncodeVariants(s: Setting, w: World, d: Cache, job: Job, failed: bool)
    requires job.id in w.cache.table && VariantsOk(s, w.run, w.cache.table[job.id])
    requires var e := w.cache.table[job.id];
      && EncodedTo(w.cache, d, job.id, job.key, if failed then None else Some(BodyOf(s.marshal, s.epoch, e, job.req)))
      && Paired(s.cfg, w.run, e, job.req.v) && job.key == ViewKey(s.epoch, e, job.req)
    ensures OnlyRecord(w.cache, d, job.id) && job.id in d.table && VariantsOk(s, w.run, d.table[job.id])
    ensures d.table[job.id].variantFlights == w.cache.table[job.id].variantFlights - {job.key}
  {
    var e := w.cache.table[job.id];
    EncodedFacts(w.cache, d, job.id, job.key, if failed then None else Some(BodyOf(s.marshal, s.epoch, e, job.req)));
    OnlyRecordHas(w.cache, d, job.id);
    hide *;
    NewVariantsOk(s, w.run, e, d.table[job.id], job.key, job.req);
  }

  lemma FinishEncodeKeepsWorld(s: Setting, w: World, u: World, caller: nat, failed: bool)
    requires WorldOk(s, w) && Does(s, w, FinishEncode(caller, failed), u)
    ensures WorldOk(s, u)
  {
    hide *;
    WorldParts(s, w);
    WorldParts(s, u);
    FinishEncodeFacts(s, w, u, caller, failed);
    var job := w.encoding[caller];
    var body := if failed then None else Some(BodyOf(s.marshal, s.epoch, w.cache.table[job.id], job.req));
    EncodeKeepsOk(w.cache, u.cache, job.id, job.key, body);
    EncodeListed(w.cache, u.cache, job.id, job.key, body);
    VariantsAt(s, w, job.id);
    FinishEncodeVariants(s, w, u.cache, job, failed);
    RecordKeepsWorld(s, w, u.cache, job.id, u.encoding);
    FinishEncodeKeepsJobs(s, w, u.cache, caller);
  }

  lemma FlightsAre(c: Cache, d: Cache, id: nat)
    requires OnlyRecord(c, d, id)
    ensures d.flights == c.flights
  {
  }

  lemma DoesKeepsWorld(s: Setting, w: World, act: Act, u: World)
    requires WorldOk(s, w) && Does(s, w, act, u)
    ensures WorldOk(s, u)
  {
    match act
    case Track(e) => TrackKeepsWorld(s, w, e);
    case StartGet(caller, h, at, allowCoalesce, now) => StartGetKeepsWorld(s, w, u, caller, h, at, allowCoalesce, now);
    case FinishGet(caller, id, failed, captured, latest, now) => FinishGetKeepsWorld(s, w, u, caller, id, failed,
      captured, latest, now);
    case StartEncode(caller, id, req) => StartEncodeKeepsWorld(s, w, u, caller, id, req);
    case FinishEncode(caller, failed) => FinishEncodeKeepsWorld(s, w, u, caller, failed);
  }

  // ---------- whole histories ----------

  /** worlds[0] is new and each world follows from the one before by the act between them. */
  ghost predicate History(s: Setting, worlds: seq<World>, acts: seq<Act>)
  {
    && |worlds| == |acts| + 1 && worlds[0] == NEW_WORLD
    && (forall i :: 0 <= i < |acts| ==> Does(s, worlds[i], acts[i], worlds[i + 1]))
  }

  lemma HistoryStep(s: Setting, worlds: seq<World>, acts: seq<Act>, i: nat)
    requires History(s, worlds, acts) && i < |worlds|
    ensures |worlds| == |acts| + 1 && worlds[0] == NEW_WORLD
    ensures i > 0 ==> Does(s, worlds[i - 1], acts[i - 1], worlds[i])
  {
    hide Does;
  }

  lemma {:induction false} HistoryOk(s: Setting, worlds: seq<World>, acts: seq<Act>, i: nat)
    requires History(s, worlds, acts) && i < |worlds|
    ensures WorldOk(s, worlds[i])
  {
    hide *;
    HistoryStep(s, worlds, acts, i);
    if i == 0 {
      NewWorldOk(s);
    } else {
      HistoryOk(s, worlds, acts, i - 1);
      DoesKeepsWorld(s, worlds[i - 1], acts[i - 1], worlds[i]);
    }
  }

  /** At most one caller builds a height at any time, and only while its flight is open. */
  lemma OneBuildPerHeight(s: Setting, worlds: seq<World>, acts: seq<Act>, i: nat, a: nat, b: nat)
    requires History(s, worlds, acts) && i < |worlds|
    requires a in worlds[i].building && b in worlds[i].building
      && worlds[i].building[a].height == worlds[i].building[b].height
    ensures a == b && worlds[i].building[a].height in worlds[i].cache.flights
  {
    HistoryOk(s, worlds, acts, i);
    hide History, CacheOk, AllGenuine, SingleEncoding, AllVariantsOk;
  }

  /** After every locked section the charges add up and the byte, entry and variant bounds hold. */
  lemma CacheStaysBounded(s: Setting, worlds: seq<World>, acts: seq<Act>, i: nat)
    requires History(s, worlds, acts) && i < |worlds|
    ensures var c := worlds[i].cache;
      && c.bytes == Total(c.table, c.entries) <= CACHE_BYTES && |c.entries| <= CACHE_ENTRIES
      && (forall id :: id in c.table ==>
            c.table[id].size == c.table[id].base + VariantBytes(c.table[id].variants)
              && |c.table[id].variants| <= CACHE_VARIANTS
            && c.table[id].variants.Keys !! c.table[id].variantFlights)
  {
    HistoryOk(s, worlds, acts, i);
    hide History, AllGenuine, SingleEncoding, AllVariantsOk, SingleFlight, Total, VariantBytes;
  }

  /**
   What a hit hands out. With equal revisions it is what a fresh build shows at the version's moment. When
   coalesced, commit flag and canonical hash agree, and every shown round is still retained if and only if
   the record observed no more rounds than the version.
   */
  lemma HitMatchesTracker(s: Setting, worlds: seq<World>, acts: seq<Act>, i: nat, h: int, at: nat, allowCoalesce: bool,
        now: int, id: nat)
    requires History(s, worlds, acts) && i < |worlds| && at <= |worlds[i].run|
    requires LookedUp(s, worlds[i], h, at, allowCoalesce, now).found == Hit(id)
    ensures id in worlds[i].cache.table
    ensures var w, e, v := worlds[i], worlds[i].cache.table[id], VersionAt(s.cfg, worlds[i].run, at, h);
      && e.height == h && e.captured <= |w.run|
      && (e.evidence == v.evidence ==> WithCatalogue(e.report, v.header) == ReportAt(s.cfg, w.run, at, h))
      && (e.evidence != v.evidence ==>
            && allowCoalesce && e.report.committed == v.header.committed
              && e.report.canonicalHash == v.header.canonicalHash
            && h in Run(s.cfg, w.run[..at]).archive
            && (RoundsShown(e.report) <= Run(s.cfg, w.run[..at]).archive[h].rounds.Keys
              <==> e.report.coverage.observed <= v.header.coverage.observed))
  {
    HistoryOk(s, worlds, acts, i);
    var w, v := worlds[i], VersionAt(s.cfg, worlds[i].run, at, h);
    LookupCases(w.cache, h, v, allowCoalesce, now);
    HitEntry(s, w, h, v, allowCoalesce, now, id);
    var e := w.cache.table[id];
    FoundMeansRetained(Run(s.cfg, w.run[..at]), h);
    hide History, WorldOk, Lookup, Servable, Run, HeaderOf, FullReport, WithCatalogue;
    if e.evidence == v.evidence {
      EqualEvidenceIsFresh(s.cfg, w.run, e.captured, at, h);
    } else {
      CoalescedRounds(s.cfg, w.run, e.captured, at, h);
    }
  }

  lemma HitEntry(s: Setting, w: World, h: int, v: Version, allowCoalesce: bool, now: int, id: nat)
    requires WorldOk(s, w) && Lookup(w.cache, h, v, allowCoalesce, now).found == Hit(id)
    ensures v.header.found && id in w.cache.table && w.cache.table[id].height == h
    ensures Genuine(s.cfg, w.run, w.cache.table[id]) && Serves(w.cache.table[id], v, allowCoalesce, now)
      && w.cache.table[id].report.found
  {
    LookupCases(w.cache, h, v, allowCoalesce, now);
    hide Lookup, Genuine, SingleEncoding, AllVariantsOk, SingleFlight, Total, EntryOk, CanCoalesce;
  }

  /** A stored variant is the body the request would have been encoded to afresh. */
  lemma StoredVariantIsFresh(s: Setting, worlds: seq<World>, acts: seq<Act>, i: nat, id: nat, req: Request,
        body: string)
    requires History(s, worlds, acts) && i < |worlds| && id in worlds[i].cache.table
    requires Paired(s.cfg, worlds[i].run, worlds[i].cache.table[id], req.v)
    requires VariantLookup(worlds[i].cache, id, ViewKey(s.epoch, worlds[i].cache.table[id], req)).1 == Stored(body)
    ensures body == BodyOf(s.marshal, s.epoch, worlds[i].cache.table[id], req)
  {
    hide History, Paired, ViewKey, BodyOf, Bodied, VariantsOk;
    HistoryOk(s, worlds, acts, i);
    var w := worlds[i];
    assert VariantsOk(s, w.run, w.cache.table[id]) by { hide CacheOk, AllGenuine, SingleFlight, SingleEncoding; }
    StoredIsFresh(s, w.run, w.cache.table[id], req, body);
  }

  lemma StoredIsFresh(s: Setting, run: seq<Timed>, e: Entry, req: Request, body: string)
    requires VariantsOk(s, run, e) && Paired(s.cfg, run, e, req.v)
    requires ViewKey(s.epoch, e, req) in e.variants && body == e.variants[ViewKey(s.epoch, e, req)]
    ensures body == BodyOf(s.marshal, s.epoch, e, req)
  {
    hide Paired, ViewKey, BodyOf;
    var key := ViewKey(s.epoch, e, req);
    var r :| Bodied(s, run, e, key, e.variants[key], r);
    SameKeySameBody(s.cfg, run, s.marshal, s.epoch, e, r, req);
  }
}
