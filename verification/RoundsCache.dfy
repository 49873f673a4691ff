/**
 internal/web/rounds_cache.go and the variant store of rounds_compact.go: the locked sections of the
 report cache. An entry is addressed by an identity, as the source's pointers are, because an entry that
 left the cache may still be in use. A record's charge is in bytes; times are in nanoseconds.
 */
module RoundsCache {
  import opened Common
  import opened Snapshot

  const CACHE_BYTES := 0x400_0000
  const CACHE_ENTRIES := 32
  const CACHE_VARIANTS := 8
  const COALESCE := 250_000_000

  /** divergence.ArchiveVersion; at is the length of the tracker's run when it was read. */
  datatype Version = Version(at: nat, evidence: nat, catalogue: nat, header: BlockView)

  /** captured is the length of the tracker's run when the evidence was captured; base charges the report itself. */
  datatype Entry = Entry(
    height: int,
    evidence: nat,
    captured: nat,
    report: BlockView,
    builtAt: int,
    lastUsed: int,
    base: nat,
    variants: map<string, string>,
    variantFlights: set<string>,
    size: int)

  datatype Cache = Cache(table: map<nat, Entry>, entries: map<int, nat>, flights: set<int>, bytes: int)

  const EMPTY_CACHE := Cache(map[], map[], {}, 0)

  // ---------- charges ----------

  ghost function Lengths(variants: map<string, string>): string -> int
  {
    (k: string) => if k in variants then |variants[k]| else 0
  }

  ghost function VariantBytes(variants: map<string, string>): int { Sum(variants.Keys, Lengths(variants)) }

  ghost function Sizes(table: map<nat, Entry>, entries: map<int, nat>): int -> int
  {
    (h: int) => if h in entries && entries[h] in table then table[entries[h]].size else 0
  }

  ghost function Total(table: map<nat, Entry>, entries: map<int, nat>): int { Sum(entries.Keys, Sizes(table, entries)) }

  /** A record's charge is its base plus its variants; no variant is both stored and in flight. */
  ghost predicate EntryOk(e: Entry)
  {
    && e.size == e.base + VariantBytes(e.variants)
    && e.variants.Keys !! e.variantFlights
    && |e.variants| <= CACHE_VARIANTS
  }

  /** Cached identities are known, and each is filed under the height of its report. */
  ghost predicate Indexed(table: map<nat, Entry>, entries: map<int, nat>)
  {
    forall h :: h in entries ==> entries[h] in table && table[entries[h]].height == h
  }

  predicate Within(c: Cache) { c.bytes <= CACHE_BYTES && |c.entries| <= CACHE_ENTRIES }

  ghost predicate EntriesOk(table: map<nat, Entry>) { forall id :: id in table ==> EntryOk(table[id]) }

  /** The cached charges add up: what the trim loop lives on. */
  ghost predicate Balanced(c: Cache)
  {
    && Indexed(c.table, c.entries)
    && (forall h :: h in c.entries ==> c.table[c.entries[h]].size >= 0)
    && c.bytes == Total(c.table, c.entries)
  }

  ghost predicate CacheOk(c: Cache) { Balanced(c) && EntriesOk(c.table) && Within(c) }

  // ---------- sections of get ----------

  /** canCoalesce at clock reading now */
  predicate CanCoalesce(e: Entry, v: Version, now: int)
  {
    && v.header.found && e.report.committed == v.header.committed && e.report.canonicalHash == v.header.canonicalHash
    && e.report.coverage.evicted == v.header.coverage.evicted && now - e.builtAt < COALESCE
  }

  predicate Serves(e: Entry, v: Version, allowCoalesce: bool, now: int)
  {
    e.evidence == v.evidence || (allowCoalesce && CanCoalesce(e, v, now))
  }

  /** removeLocked */
  function Remove(c: Cache, h: int): Cache
  {
    if h in c.entries && c.entries[h] in c.table
      then c.(entries := c.entries - {h}, bytes := c.bytes - c.table[c.entries[h]].size) else c
  }

  datatype Found = Hit(id: nat) | Join | Build | Missing

  datatype Looked = Looked(cache: Cache, found: Found)

  /** The cached record that get may hand out without building. */
  function Servable(c: Cache, h: int, v: Version, allowCoalesce: bool, now: int): Option<nat>
  {
    if h in c.entries && c.entries[h] in c.table && Serves(c.table[c.entries[h]], v, allowCoalesce, now)
      then Some(c.entries[h]) else None
  }

  function Touch(c: Cache, id: nat, now: int): Cache
    requires id in c.table
  {
    c.(table := c.table[id := c.table[id].(lastUsed := now)])
  }

  /** The first locked section of get. */
  function Lookup(c: Cache, h: int, v: Version, allowCoalesce: bool, now: int): Looked
  {
    if !v.header.found then Looked(Remove(c, h), Missing) else
      var served := Servable(c, h, v, allowCoalesce, now);
      if served.Some? then Looked(Touch(c, served.value, now), Hit(served.value))
      else if h in c.flights then Looked(c, Join)
      else Looked(c.(flights := c.flights + {h}), Build)
  }

  lemma LookupCases(c: Cache, h: int, v: Version, allowCoalesce: bool, now: int)
    ensures var served, r := Servable(c, h, v, allowCoalesce, now), Lookup(c, h, v, allowCoalesce, now);
      && (!v.header.found ==> r == Looked(Remove(c, h), Missing))
      && (v.header.found && served.Some?
        ==> served.value in c.table && r == Looked(Touch(c, served.value, now), Hit(served.value)))
      && (v.header.found && served.None? ==>
        r == if h in c.flights then Looked(c, Join) else Looked(c.(flights := c.flights + {h}), Build))
    ensures Remove(c, h).table == c.table
  {
    hide Serves;
  }

  /** A record as build makes it. */
  function NewEntry(h: int, evidence: nat, captured: nat, report: BlockView, full: string, now: int): Entry
  {
    Entry(h, evidence, captured, report, now, now, 3 * |full|, map[], {}, 3 * |full|)
  }

  /** The publication of a built record, before trimming. */
  function Insert(c: Cache, h: int, id: nat, e: Entry): Cache
  {
    var cleared := Remove(c, h);
    cleared.(table := cleared.table[id := e], entries := cleared.entries[h := id], bytes := cleared.bytes + e.size)
  }

  predicate Publishes(e: Entry, latest: Version) { latest.header.found && e.report.found && e.size <= CACHE_BYTES }

  /** What the trim loop keeps: some least recently used records left, each while the bounds were exceeded. */
  ghost predicate Trimming(c: Cache, d: Cache)
  {
    && Balanced(d) && Indexed(c.table, c.entries) && d.table == c.table && d.flights == c.flights
    && d.entries.Keys <= c.entries.Keys && (forall h :: h in d.entries ==> d.entries[h] == c.entries[h])
    && OldestWent(c, d)
    && (d.entries != c.entries ==> exists h :: h in c.entries && h !in d.entries && !WithinWith(c, d, h))
  }

  /** d is c after trimLocked: least recently used records left until the bounds held, and no more than that. */
  ghost predicate TrimmedTo(c: Cache, d: Cache) { Trimming(c, d) && Within(d) }

  function UsedAt(c: Cache, h: int): int
    requires h in c.entries && c.entries[h] in c.table
  {
    c.table[c.entries[h]].lastUsed
  }

  /** Nothing that left was used more recently than anything that stayed. */
  ghost predicate OldestWent(c: Cache, d: Cache)
    requires Indexed(c.table, c.entries)
  {
    forall h, g ::
      h in c.entries && h !in d.entries && g in c.entries && g in d.entries ==> UsedAt(c, h) <= UsedAt(c, g)
  }

  /** Whether d would be within bounds if it still held h as c does. */
  ghost predicate WithinWith(c: Cache, d: Cache, h: int)
    requires h in c.entries && c.entries[h] in c.table
  {
    d.bytes + c.table[c.entries[h]].size <= CACHE_BYTES && |d.entries| + 1 <= CACHE_ENTRIES
  }

  /** The second locked section of get, for a record id that was built (None is a failed build). */
  ghost predicate PublishedTo(c: Cache, d: Cache, h: int, id: nat, built: Option<Entry>, latest: Version)
  {
    if built.Some? && Publishes(built.value, latest) then
      exists mid :: TrimmedTo(Insert(c, h, id, built.value), mid) && d == mid.(flights := mid.flights - {h})
    else if built.Some? then d == c.(table := c.table[id := built.value], flights := c.flights - {h})
    else d == c.(flights := c.flights - {h})
  }

  // ---------- sections of encoded ----------

  datatype VariantFound = Stored(body: string) | JoinVariant | Encode

  function VariantLookup(c: Cache, id: nat, key: string): (Cache, VariantFound)
    requires id in c.table
  {
    var e := c.table[id];
    if key in e.variants then (c, Stored(e.variants[key]))
    else if key in e.variantFlights then (c, JoinVariant)
    else (c.(table := c.table[id := e.(variantFlights := e.variantFlights + {key})]), Encode)
  }

  /** Storing a variant, before trimming; a full set of variants is dropped first. */
  ghost function Grown(e: Entry, key: string, body: string): Entry
  {
    var full := |e.variants| >= CACHE_VARIANTS;
    e.(variants := (if full then map[] else e.variants)[key := body],
      size := e.size - (if full then VariantBytes(e.variants) else 0) + |body|)
  }

  ghost function Store(c: Cache, id: nat, key: string, body: string): Cache
    requires id in c.table
  {
    var grown := Grown(c.table[id], key, body);
    c.(table := c.table[id := grown], bytes := c.bytes - c.table[id].size + grown.size)
  }

  function Land(c: Cache, id: nat, key: string): Cache
    requires id in c.table
  {
    c.(table := c.table[id := c.table[id].(variantFlights := c.table[id].variantFlights - {key})])
  }

  predicate IsCached(c: Cache, id: nat)
    requires id in c.table
  {
    var h := c.table[id].height;
    h in c.entries && c.entries[h] == id
  }

  /** The second locked section of encoded; None is a failed encoding. */
  ghost predicate EncodedTo(c: Cache, d: Cache, id: nat, key: string, body: Option<string>)
    requires id in c.table
  {
    if body.Some? && IsCached(c, id) then exists mid ::
      TrimmedTo(Store(c, id, key, body.value), mid) && id in mid.table && d == Land(mid, id, key)
    else d == Land(c, id, key)
  }

  // ---------- accounting lemmas ----------

  lemma TotalWithout(table: map<nat, Entry>, entries: map<int, nat>, h: int)
    requires h in entries && entries[h] in table
    ensures Total(table, entries - {h}) == Total(table, entries) - table[entries[h]].size
    ensures |entries - {h}| == |entries| - 1
  {
    var rest := entries - {h};
    assert rest.Keys == entries.Keys - {h};
    SumRemove(entries.Keys, Sizes(table, entries), h);
    SumAgree(rest.Keys, Sizes(table, entries), Sizes(table, rest));
    assert |rest| == |rest.Keys| && |entries| == |entries.Keys|;
  }

  lemma TotalWith(table: map<nat, Entry>, entries: map<int, nat>, h: int, id: nat)
    requires h !in entries && id in table
    ensures Total(table, entries[h := id]) == Total(table, entries) + table[id].size
  {
    var more := entries[h := id];
    assert more.Keys == entries.Keys + {h};
    SumInsert(entries.Keys, Sizes(table, more), h);
    SumAgree(entries.Keys, Sizes(table, more), Sizes(table, entries));
  }

  /** Changing a record that is not cached, or its size not at all, leaves the total. */
  lemma TotalSame(table: map<nat, Entry>, table2: map<nat, Entry>, entries: map<int, nat>)
    requires forall h ::
      h in entries ==> entries[h] in table && entries[h] in table2 && table2[entries[h]].size == table[entries[h]].size
    ensures Total(table2, entries) == Total(table, entries)
  {
    forall h | h in entries.Keys ensures Sizes(table, entries)(h) == Sizes(table2, entries)(h) { }
    SumAgree(entries.Keys, Sizes(table, entries), Sizes(table2, entries));
  }

  /** Resizing one cached record moves the total by the same amount. */
  lemma TotalResized(table: map<nat, Entry>, entries: map<int, nat>, h: int, e: Entry)
    requires Indexed(table, entries) && h in entries && e.height == h
    ensures Total(table[entries[h] := e], entries) == Total(table, entries) - table[entries[h]].size + e.size
  {
    var id := entries[h];
    var table2 := table[id := e];
    SumRemove(entries.Keys, Sizes(table, entries), h);
    SumRemove(entries.Keys, Sizes(table2, entries), h);
    forall x | x in entries.Keys - {h} ensures Sizes(table, entries)(x) == Sizes(table2, entries)(x) {
      assert entries[x] != id by { assert table[entries[x]].height == x; }
    }
    SumAgree(entries.Keys - {h}, Sizes(table, entries), Sizes(table2, entries));
  }

  lemma VariantsNonNegative(variants: map<string, string>)
    ensures VariantBytes(variants) >= 0
  {
    SumAtMost({}, variants.Keys, Lengths(variants));
  }

  lemma EntrySizeNonNegative(e: Entry)
    requires EntryOk(e)
    ensures e.size >= 0
  {
    VariantsNonNegative(e.variants);
  }

  lemma VariantAdded(variants: map<string, string>, key: string, body: string)
    requires key !in variants
    ensures VariantBytes(variants[key := body]) == VariantBytes(variants) + |body|
    ensures |variants[key := body]| == |variants| + 1
  {
    var more := variants[key := body];
    assert more.Keys == variants.Keys + {key};
    SumInsert(variants.Keys, Lengths(more), key);
    SumAgree(variants.Keys, Lengths(more), Lengths(variants));
    assert |more| == |more.Keys| && |variants| == |variants.Keys|;
  }

  /** Over the byte budget there is a record to remove: the trim loop never turns on an empty cache. */
  lemma OverBudgetHasEntries(c: Cache)
    requires Balanced(c) && !Within(c)
    ensures c.entries.Keys != {}
  {
    assert |c.entries| == |c.entries.Keys|;
    assert Sum({}, Sizes(c.table, c.entries)) == 0;
  }

  lemma RemoveKeepsBalance(c: Cache, h: int)
    requires Balanced(c)
    ensures Balanced(Remove(c, h)) && Remove(c, h).table == c.table && Remove(c, h).flights == c.flights
    ensures Remove(c, h).entries == c.entries - {h}
    ensures h in c.entries ==> |Remove(c, h).entries| == |c.entries| - 1
  {
    if h in c.entries {
      RemoveListed(c, h);
    } else {
      assert c.entries - {h} == c.entries;
    }
    hide Balanced;
  }

  lemma RemoveListed(c: Cache, h: int)
    requires Balanced(c) && h in c.entries
    ensures Balanced(Remove(c, h)) && Remove(c, h) == c.(entries := c.entries - {h}, bytes := Remove(c, h).bytes)
    ensures |Remove(c, h).entries| == |c.entries| - 1
  {
    TotalWithout(c.table, c.entries, h);
    hide Total;
  }

  lemma InsertKeepsBalance(c: Cache, h: int, id: nat, e: Entry)
    requires Balanced(c) && id !in c.table && e.height == h && e.size >= 0
    ensures Balanced(Insert(c, h, id, e)) && Insert(c, h, id, e).entries == (c.entries - {h})[h := id]
  {
    RemoveKeepsBalance(c, h);
    var cleared := Remove(c, h);
    assert Insert(c, h, id, e)
      == cleared.(table := c.table[id := e], entries := cleared.entries[h := id], bytes := cleared.bytes + e.size);
    hide Remove, Insert, Total, Balanced;
    ListKeepsBalance(cleared, h, id, e);
  }

  lemma ListKeepsBalance(c: Cache, h: int, id: nat, e: Entry)
    requires Balanced(c) && id !in c.table && h !in c.entries && e.height == h && e.size >= 0
    ensures Balanced(c.(table := c.table[id := e], entries := c.entries[h := id], bytes := c.bytes + e.size))
  {
    var table2 := c.table[id := e];
    ListedElsewhere(c, id, e);
    TotalSame(c.table, table2, c.entries);
    TotalWith(table2, c.entries, h, id);
    hide Total;
  }

  /** A new identity is not one of those listed. */
  lemma ListedElsewhere(c: Cache, id: nat, e: Entry)
    requires Balanced(c) && id !in c.table
    ensures forall h :: h in c.entries ==> c.entries[h] != id && c.table[id := e][c.entries[h]] == c.table[c.entries[h]]
  {
    hide Total;
  }

  /** A record nobody has listed yet does not move the balance. */
  lemma TableKeepsBalance(c: Cache, id: nat, e: Entry, flights: set<int>)
    requires Balanced(c) && id !in c.table
    ensures Balanced(c.(table := c.table[id := e], flights := flights))
  {
    TotalSame(c.table, c.table[id := e], c.entries);
    hide Total;
  }

  lemma TouchKeepsBalance(c: Cache, id: nat, e: Entry)
    requires Balanced(c) && id in c.table && e.height == c.table[id].height && e.size == c.table[id].size
    ensures Balanced(c.(table := c.table[id := e]))
  {
    TotalSame(c.table, c.table[id := e], c.entries);
    hide Total;
  }

  lemma ResizeKeepsBalance(c: Cache, id: nat, e: Entry)
    requires Balanced(c) && id in c.table && IsCached(c, id) && e.height == c.table[id].height && e.size >= 0
    ensures Balanced(c.(table := c.table[id := e], bytes := c.bytes - c.table[id].size + e.size))
  {
    TotalResized(c.table, c.entries, e.height, e);
    hide Total;
  }

  lemma StoreEntryOk(e: Entry, key: string, body: string)
    requires EntryOk(e) && key in e.variantFlights
    ensures var grown := Grown(e, key, body);
      EntryOk(grown.(variantFlights := e.variantFlights - {key})) && grown.size >= 0
  {
    var kept := if |e.variants| >= CACHE_VARIANTS then map[] else e.variants;
    assert VariantBytes(map[]) == 0;
    VariantAdded(kept, key, body);
    VariantsNonNegative(kept);
  }

  // ---------- every locked section keeps the invariant ----------

  lemma CacheParts(c: Cache)
    requires CacheOk(c)
    ensures Balanced(c) && EntriesOk(c.table) && Within(c)
    ensures forall id :: id in c.table ==> EntryOk(c.table[id])
  {
    hide Balanced, EntryOk;
  }

  lemma TableOk(table: map<nat, Entry>, id: nat, e: Entry)
    requires EntriesOk(table) && EntryOk(e)
    ensures EntriesOk(table[id := e])
  {
    hide EntryOk;
  }

  lemma RemoveKeepsOk(c: Cache, h: int)
    requires CacheOk(c)
    ensures CacheOk(Remove(c, h))
  {
    CacheParts(c);
    RemoveKeepsBalance(c, h);
    if h in c.entries { RemovedBytes(c, h); }
    hide Balanced, EntriesOk, Remove;
    assert c.entries - {h} == c.entries || h in c.entries;
  }

  /** A record may be touched as long as its charge stays. */
  lemma TouchKeepsOk(c: Cache, id: nat, e: Entry)
    requires CacheOk(c) && id in c.table && EntryOk(e) && e.height == c.table[id].height && e.size == c.table[id].size
    ensures CacheOk(c.(table := c.table[id := e]))
  {
    CacheParts(c);
    TableOk(c.table, id, e);
    hide Balanced, EntriesOk, EntryOk;
    TouchKeepsBalance(c, id, e);
  }

  lemma LookupKeepsOk(c: Cache, h: int, v: Version, allowCoalesce: bool, now: int)
    requires CacheOk(c)
    ensures CacheOk(Lookup(c, h, v, allowCoalesce, now).cache)
  {
    CacheParts(c);
    assert h in c.entries ==> c.entries[h] in c.table;
    var served := Servable(c, h, v, allowCoalesce, now);
    if served.Some? {
      var e := c.table[served.value];
      assert EntryOk(e.(lastUsed := now)) by { assert EntryOk(e); }
    }
    hide CacheOk, Balanced, EntriesOk, EntryOk, Remove, Servable;
    RemoveKeepsOk(c, h);
    FlightsKeepOk(c, c.flights + {h});
    if served.Some? { TouchKeepsOk(c, served.value, c.table[served.value].(lastUsed := now)); }
  }

  lemma RemovedBytes(c: Cache, h: int)
    requires Balanced(c) && h in c.entries
    ensures Remove(c, h).bytes <= c.bytes
  {
  }

  lemma TrimKeepsOk(c: Cache, d: Cache)
    requires TrimmedTo(c, d) && EntriesOk(c.table)
    ensures CacheOk(d)
  {
    hide Total, EntryOk, OldestWent;
  }

  lemma FlightsKeepOk(c: Cache, flights: set<int>)
    requires CacheOk(c)
    ensures CacheOk(c.(flights := flights))
  {
    hide Total, EntryOk;
  }

  lemma ListedKeepsOk(c: Cache, d: Cache, h: int, id: nat, e: Entry)
    requires CacheOk(c) && id !in c.table && e.height == h && EntryOk(e) && TrimmedTo(Insert(c, h, id, e), d)
    ensures CacheOk(d)
  {
    hide *;
    CacheParts(c);
    EntrySizeNonNegative(e);
    InsertKeepsBalance(c, h, id, e);
    InsertTable(c, h, id, e);
    TableOk(c.table, id, e);
    TrimKeepsOk(Insert(c, h, id, e), d);
  }

  lemma UnlistedKeepsOk(c: Cache, h: int, id: nat, e: Entry)
    requires CacheOk(c) && id !in c.table && EntryOk(e)
    ensures CacheOk(c.(table := c.table[id := e], flights := c.flights - {h}))
  {
    CacheParts(c);
    TableKeepsBalance(c, id, e, c.flights - {h});
    TableOk(c.table, id, e);
    hide Balanced, EntryOk, EntriesOk;
  }

  lemma PublishKeepsOk(c: Cache, d: Cache, h: int, id: nat, built: Option<Entry>, latest: Version)
    requires CacheOk(c) && id !in c.table && (built.Some? ==> built.value.height == h && EntryOk(built.value))
    requires PublishedTo(c, d, h, id, built, latest)
    ensures CacheOk(d)
  {
    hide CacheOk, TrimmedTo, Insert, EntryOk, Publishes;
    if built.Some? && Publishes(built.value, latest) {
      var mid :| TrimmedTo(Insert(c, h, id, built.value), mid) && d == mid.(flights := mid.flights - {h});
      ListedKeepsOk(c, mid, h, id, built.value);
      FlightsKeepOk(mid, mid.flights - {h});
    } else if built.Some? {
      UnlistedKeepsOk(c, h, id, built.value);
    } else {
      FlightsKeepOk(c, c.flights - {h});
    }
  }

  lemma VariantLookupKeepsOk(c: Cache, id: nat, key: string)
    requires CacheOk(c) && id in c.table
    ensures CacheOk(VariantLookup(c, id, key).0)
  {
    CacheParts(c);
    var e := c.table[id];
    if key !in e.variants {
      assert EntryOk(e.(variantFlights := e.variantFlights + {key}));
      hide CacheOk, EntryOk;
      TouchKeepsOk(c, id, e.(variantFlights := e.variantFlights + {key}));
    }
  }

  lemma LandKeepsOk(c: Cache, id: nat, key: string)
    requires Balanced(c) && Within(c) && id in c.table
      && EntryOk(c.table[id].(variantFlights := c.table[id].variantFlights - {key}))
    requires forall x :: x in c.table && x != id ==> EntryOk(c.table[x])
    ensures CacheOk(Land(c, id, key))
  {
    TouchKeepsBalance(c, id, c.table[id].(variantFlights := c.table[id].variantFlights - {key}));
    hide Balanced, EntryOk;
  }

  lemma StoredKeepsOk(c: Cache, mid: Cache, id: nat, key: string, body: string)
    requires CacheOk(c) && id in c.table && key in c.table[id].variantFlights && IsCached(c, id)
    requires TrimmedTo(Store(c, id, key, body), mid)
    ensures id in mid.table && CacheOk(Land(mid, id, key))
  {
    hide *;
    StoredTable(c, mid, id, key, body);
    CacheParts(c);
    StoreEntryOk(c.table[id], key, body);
    GrownKeepsFlights(c.table[id], key, body);
    LandKeepsOk(mid, id, key);
  }

  lemma GrownKeepsFlights(e: Entry, key: string, body: string)
    ensures Grown(e, key, body).variantFlights == e.variantFlights
  {
    hide VariantBytes;
  }

  lemma StoredTable(c: Cache, mid: Cache, id: nat, key: string, body: string)
    requires id in c.table && TrimmedTo(Store(c, id, key, body), mid)
    ensures mid.table == c.table[id := Grown(c.table[id], key, body)] && Balanced(mid) && Within(mid)
  {
    hide Balanced, Grown;
  }

  lemma EncodeKeepsOk(c: Cache, d: Cache, id: nat, key: string, body: Option<string>)
    requires CacheOk(c) && id in c.table && key in c.table[id].variantFlights && EncodedTo(c, d, id, key, body)
    ensures CacheOk(d)
  {
    if body.Some? && IsCached(c, id) {
      var mid :| TrimmedTo(Store(c, id, key, body.value), mid) && id in mid.table && d == Land(mid, id, key);
      hide *;
      StoredKeepsOk(c, mid, id, key, body.value);
    } else {
      CacheParts(c);
      assert EntryOk(c.table[id].(variantFlights := c.table[id].variantFlights - {key}));
      hide Balanced, EntryOk, CacheOk, Land;
      LandKeepsOk(c, id, key);
    }
  }

  lemma EncodedStored(c: Cache, mid: Cache, id: nat, key: string, body: string)
    requires id in c.table && IsCached(c, id) && TrimmedTo(Store(c, id, key, body), mid) && id in mid.table
    ensures EncodedTo(c, Land(mid, id, key), id, key, Some(body))
  {
    hide TrimmedTo, Land;
  }

  lemma EncodedUnstored(c: Cache, id: nat, key: string, body: Option<string>)
    requires CacheOk(c) && id in c.table && key in c.table[id].variantFlights && !(body.Some? && IsCached(c, id))
    ensures EncodedTo(c, Land(c, id, key), id, key, body) && CacheOk(Land(c, id, key))
  {
    EncodeKeepsOk(c, Land(c, id, key), id, key, body);
  }

  // ---------- the sections as the source runs them ----------

  class ReportCache {
    var table: map<nat, Entry>
    var entries: map<int, nat>
    var flights: set<int>
    var bytes: int

    ghost function State(): Cache
      reads this
    {
      Cache(table, entries, flights, bytes)
    }

    ghost predicate Valid()
      reads this
    {
      CacheOk(State())
    }

    constructor ()
      ensures State() == EMPTY_CACHE && Valid()
    {
      table, entries, flights, bytes := map[], map[], {}, 0;
    }

    method RemoveLocked(h: int)
      requires Balanced(State())
      modifies this`entries, this`bytes
      ensures State() == Remove(old(State()), h)
    {
      if h in entries {
        bytes := bytes - table[entries[h]].size;
        entries := entries - {h};
      }
    }

    /** The inner loop of trimLocked: a cached height whose record was used least recently. */
    method LeastRecentlyUsed() returns (oldest: int)
      requires Indexed(table, entries) && entries.Keys != {}
      ensures oldest in entries && forall h :: h in entries ==> UsedAt(State(), oldest) <= UsedAt(State(), h)
    {
      var rest := entries.Keys;
      ghost var done := {};
      oldest := Take(rest);
      while rest != {}
        invariant rest + done == entries.Keys && rest !! done
        invariant oldest in entries && forall h :: h in done ==> UsedAt(State(), oldest) <= UsedAt(State(), h)
        decreases |rest|
      {
        var h := Take(rest);
        Visit(rest, done, entries.Keys, h);
        if table[entries[h]].lastUsed < table[entries[oldest]].lastUsed { oldest := h; }
        rest, done := rest - {h}, done + {h};
      }
      assert done == entries.Keys;
    }

    /** trimLocked: it ends because the charge is that of the entries still held. */
    method TrimLocked()
      requires Balanced(State())
      modifies this`entries, this`bytes
      ensures TrimmedTo(old(State()), State())
    {
      ghost var c := State();
      TrimStart(c);
      while bytes > CACHE_BYTES || |entries| > CACHE_ENTRIES
        invariant table == c.table && flights == c.flights
        invariant Trimming(c, State())
        decreases |entries|
      {
        OverBudgetHasEntries(State());
        var oldest := LeastRecentlyUsed();
        TrimStep(c, State(), oldest);
        RemoveKeepsBalance(State(), oldest);
        RemoveLocked(oldest);
      }
      TrimEnd(c, State());
    }

    method LookupLocked(h: int, v: Version, allowCoalesce: bool, now: int) returns (found: Found)
      requires Valid()
      modifies this
      ensures Looked(State(), found) == Lookup(old(State()), h, v, allowCoalesce, now) && Valid()
    {
      ghost var c := State();
      LookupKeepsOk(c, h, v, allowCoalesce, now);
      LookupCases(c, h, v, allowCoalesce, now);
      CacheParts(c);
      var served := ServeLocked(h, v, allowCoalesce, now);
      hide CacheOk, Balanced, EntriesOk, EntryOk, Servable, Remove, Lookup;
      if !v.header.found {
        RemoveLocked(h);
        return Missing;
      }
      if served.Some? {
        table := table[served.value := table[served.value].(lastUsed := now)];
        return Hit(served.value);
      }
      if h in flights { return Join; }
      flights := flights + {h};
      found := Build;
    }

    method ServeLocked(h: int, v: Version, allowCoalesce: bool, now: int) returns (served: Option<nat>)
      ensures served == Servable(State(), h, v, allowCoalesce, now)
    {
      served := None;
      if h in entries && entries[h] in table {
        var yes := ServedBy(table[entries[h]], v, allowCoalesce, now);
        if yes { served := Some(entries[h]); }
      }
    }

    /** The condition under which get hands out a cached record. */
    method ServedBy(e: Entry, v: Version, allowCoalesce: bool, now: int) returns (served: bool)
      ensures served == Serves(e, v, allowCoalesce, now)
    {
      served := e.evidence == v.evidence;
      if !served && allowCoalesce {
        served := v.header.found && e.report.committed == v.header.committed
          && e.report.canonicalHash == v.header.canonicalHash
          && e.report.coverage.evicted == v.header.coverage.evicted && now - e.builtAt < COALESCE;
      }
    }

    /** Listing a built record and trimming. */
    method InsertLocked(h: int, id: nat, e: Entry)
      requires Balanced(State()) && id !in table && e.height == h && e.size >= 0
      modifies this`table, this`entries, this`bytes
      ensures TrimmedTo(Insert(old(State()), h, id, e), State())
    {
      ghost var c := State();
      InsertKeepsBalance(c, h, id, e);
      hide Balanced, TrimmedTo;
      if h in entries { RemoveLocked(h); }
      assert State() == Remove(c, h);
      hide Remove;
      table := table[id := e];
      entries := entries[h := id];
      bytes := bytes + e.size;
      assert State() == Insert(c, h, id, e);
      TrimLocked();
    }

    /** The second locked section of get; id is the new record's identity, whether or not it gets cached. */
    method PublishLocked(h: int, id: nat, built: Option<Entry>, latest: Version)
      requires Valid() && id !in table && (built.Some? ==> built.value.height == h && EntryOk(built.value))
      modifies this
      ensures PublishedTo(old(State()), State(), h, id, built, latest) && Valid()
    {
      ghost var c := State();
      CacheParts(c);
      if built.Some? { EntrySizeNonNegative(built.value); }
      hide CacheOk, Balanced, EntryOk, TrimmedTo, Insert;
      ghost var mid := c;
      if built.Some? {
        if latest.header.found && built.value.report.found && built.value.size <= CACHE_BYTES {
          InsertLocked(h, id, built.value);
          TrimKeepsTable(Insert(c, h, id, built.value), State());
          InsertTable(c, h, id, built.value);
          mid := State();
        } else {
          table := table[id := built.value];
        }
      }
      flights := flights - {h};
      assert PublishedTo(c, State(), h, id, built, latest);
      hide PublishedTo;
      PublishKeepsOk(c, State(), h, id, built, latest);
    }

    method VariantLookupLocked(id: nat, key: string) returns (found: VariantFound)
      requires Valid() && id in table
      modifies this
      ensures (State(), found) == VariantLookup(old(State()), id, key) && Valid()
    {
      VariantLookupKeepsOk(State(), id, key);
      hide CacheOk;
      var e := table[id];
      if key in e.variants { return Stored(e.variants[key]); }
      if key in e.variantFlights { return JoinVariant; }
      table := table[id := e.(variantFlights := e.variantFlights + {key})];
      found := Encode;
    }

    /** The loop that empties a full set of variants, with the charge it takes back. */
    method DropVariants(e: Entry) returns (emptied: Entry, freed: int)
      ensures emptied == e.(variants := map[], size := e.size - freed) && freed == VariantBytes(e.variants)
    {
      hide VariantBytes;
      emptied, freed := e, 0;
      var rest := e.variants.Keys;
      while rest != {}
        invariant emptied.variants.Keys == rest
        invariant emptied == e.(variants := emptied.variants, size := e.size - freed)
        invariant freed + VariantBytes(emptied.variants) == VariantBytes(e.variants)
        decreases |rest|
      {
        var k := Take(rest);
        var variants := emptied.variants;
        VariantDropped(variants, k);
        freed := freed + |variants[k]|;
        emptied := emptied.(variants := variants - {k}, size := emptied.size - |variants[k]|);
        rest := rest - {k};
      }
      NoVariants(emptied.variants);
    }

    /** Storing a variant in a cached record, and trimming. */
    method StoreLocked(id: nat, key: string, body: string)
      requires Balanced(State()) && id in table && IsCached(State(), id) && Grown(table[id], key, body).size >= 0
      modifies this`table, this`entries, this`bytes
      ensures TrimmedTo(Store(old(State()), id, key, body), State())
    {
      ghost var c := State();
      var e := table[id];
      ResizeKeepsBalance(c, id, Grown(e, key, body));
      hide Balanced, TrimmedTo, IsCached, VariantBytes;
      var grown := e;
      if |e.variants| >= CACHE_VARIANTS {
        var freed;
        grown, freed := DropVariants(e);
        bytes := bytes - freed;
      }
      grown := grown.(variants := grown.variants[key := body], size := grown.size + |body|);
      bytes := bytes + |body|;
      assert grown == Grown(e, key, body);
      table := table[id := grown];
      assert State() == Store(c, id, key, body);
      TrimLocked();
    }

    method EncodedLocked(id: nat, key: string, body: Option<string>)
      requires Valid() && id in table && key in table[id].variantFlights
      modifies this
      ensures EncodedTo(old(State()), State(), id, key, body) && Valid()
    {
      ghost var c := State();
      CacheParts(c);
      var e := table[id];
      if body.Some? { StoreEntryOk(e, key, body.value); }
      var cached := e.height in entries && entries[e.height] == id;
      assert cached == IsCached(c, id);
      hide CacheOk, Balanced, EntryOk, EntriesOk, TrimmedTo, Grown, Land, EncodedTo, IsCached, Store;
      if body.Some? && cached {
        StoreLocked(id, key, body.value);
        StoredKeepsOk(c, State(), id, key, body.value);
        EncodedStored(c, State(), id, key, body.value);
      } else {
        EncodedUnstored(c, id, key, body);
      }
      LandLocked(id, key);
    }

    /** delete(e.variantFlights, key) */
    method LandLocked(id: nat, key: string)
      requires id in table
      modifies this`table
      ensures State() == Land(old(State()), id, key)
    {
      table := table[id := table[id].(variantFlights := table[id].variantFlights - {key})];
    }
  }

  lemma NoVariants(variants: map<string, string>)
    requires variants.Keys == {}
    ensures variants == map[] && VariantBytes(variants) == 0
  {
  }

  lemma InsertTable(c: Cache, h: int, id: nat, e: Entry)
    ensures Insert(c, h, id, e).table == c.table[id := e] && Insert(c, h, id, e).flights == c.flights
  {
  }

  lemma TrimKeepsTable(c: Cache, d: Cache)
    requires TrimmedTo(c, d)
    ensures d.table == c.table && d.flights == c.flights
  {
  }

  lemma VariantDropped(variants: map<string, string>, key: string)
    requires key in variants
    ensures VariantBytes(variants - {key}) == VariantBytes(variants) - |variants[key]|
  {
    var less := variants - {key};
    assert less.Keys == variants.Keys - {key};
    SumRemove(variants.Keys, Lengths(variants), key);
    SumAgree(less.Keys, Lengths(variants), Lengths(less));
  }

  // ---------- the trim loop ----------

  lemma TrimStart(c: Cache)
    requires Balanced(c)
    ensures Trimming(c, c)
  {
    hide Total;
  }

  lemma TrimStep(c: Cache, d: Cache, oldest: int)
    requires Trimming(c, d) && !Within(d) && oldest in d.entries
      && forall h :: h in d.entries ==> UsedAt(d, oldest) <= UsedAt(d, h)
    ensures Trimming(c, Remove(d, oldest))
  {
    RemoveKeepsBalance(d, oldest);
    var r := Remove(d, oldest);
    assert r.bytes + c.table[c.entries[oldest]].size == d.bytes && |r.entries| + 1 == |d.entries|;
    assert !WithinWith(c, r, oldest);
    assert OldestWent(c, r) by { hide Balanced; }
    hide Balanced, Remove, OldestWent, WithinWith;
  }

  lemma TrimEnd(c: Cache, d: Cache)
    requires Trimming(c, d) && Within(d)
    ensures TrimmedTo(c, d)
  {
    hide Balanced, OldestWent;
  }
}
