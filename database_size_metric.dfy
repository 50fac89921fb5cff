/**
 * `DatabaseSizeMetric`: the size of the site's tables, summed from
 * `SHOW TABLE STATUS` and kept in a two-tier cache: the object cache
 * (`wp_cache_get`/`wp_cache_set`), when the site has one, in front of a
 * process-wide map whose entries carry an expiry time. Sizes stay in bytes.
 */
module DatabaseSizeMetric {
  import opened Wrappers
  import opened Php
  import opened Results

  const TypeName: string := "database_size"
  const CacheGroup: string := "vigilant_healthchecks_database_size"
  const DefaultCacheTtl: int := 300
  const Unit: string := "MB"

  const NoDatabaseError: string := "WordPress database object not available."
  const NoPrefixError: string := "WordPress table prefix is not defined."
  const UnexpectedStatusError: string := "SHOW TABLE STATUS returned an unexpected response."
  const MeasureError: string := "Unable to calculate database size."

  /** The global `$wpdb`: its table prefix and what `SHOW TABLE STATUS LIKE '<prefix>%'` returns. */
  datatype Wpdb = Wpdb(prefix: string, tableStatus: Value)

  /** An entry of the process-wide cache. */
  datatype LocalEntry = LocalEntry(value: int, expiresAt: int)

  /** What `wp_cache_set` was given for a key of the cache group. */
  datatype ExternalEntry = ExternalEntry(value: int, ttl: nat)

  /** `(float) ($table->Data_length ?? 0) + (float) ($table->Index_length ?? 0)`. */
  function TableBytes(table: Value): int {
    IntCast(Coalesce(Prop(table, "Data_length"), Int(0))) + IntCast(Coalesce(Prop(table, "Index_length"), Int(0)))
  }

  /** The total the scan loop accumulates over the returned rows. */
  function TotalBytes(tables: seq<Value>): int {
    if tables == [] then 0 else TotalBytes(tables[..|tables| - 1]) + TableBytes(tables[|tables| - 1])
  }

  /** The total is additive over the rows, whichever way they are split. */
  lemma {:induction false} TotalBytesAppend(a: seq<Value>, b: seq<Value>)
    ensures TotalBytes(a + b) == TotalBytes(a) + TotalBytes(b)
    decreases |b|
  {
    if b == [] {
      assert a + b == a;
    } else {
      assert (a + b)[..|a + b| - 1] == a + b[..|b| - 1];
      TotalBytesAppend(a, b[..|b| - 1]);
    }
  }

  /** A row without `Data_length` and `Index_length` adds nothing. */
  lemma {:induction false} RowsWithoutLengthsAddNothing(a: seq<Value>, n: nat)
    ensures TotalBytes(a + seq(n, _ => Obj([]))) == TotalBytes(a)
  {
    var blanks := seq(n, _ => Obj([]));
    TotalBytesAppend(a, blanks);
    BlankRowsTotalZero(n);
  }

  lemma {:induction false} BlankRowsTotalZero(n: nat)
    ensures TotalBytes(seq(n, _ => Obj([]))) == 0
  {
    if n > 0 {
      var blanks := seq(n, _ => Obj([]));
      assert blanks[..n - 1] == seq(n - 1, _ => Obj([]));
      BlankRowsTotalZero(n - 1);
    }
  }

  /** The rows `foreach ($tables as $table)` visits. */
  function Rows(entries: seq<Entry>): (r: seq<Value>)
    ensures |r| == |entries| && forall i :: 0 <= i < |r| ==> r[i] == entries[i].val
  {
    seq(|entries|, i requires 0 <= i < |entries| => entries[i].val)
  }

  /** The loop of `calculateSize` that adds up data and index lengths. */
  method SumTableSizes(tables: seq<Value>) returns (total: int)
    ensures total == TotalBytes(tables)
  {
    total := 0;
    for i := 0 to |tables|
      invariant total == TotalBytes(tables[..i])
    {
      assert tables[..i + 1][..i] == tables[..i];
      total := total + TableBytes(tables[i]);
    }
    assert tables[..|tables|] == tables;
  }

  /**
   * `cacheTtl()`: `filtered` is what the `vigilant_healthchecks_database_size_cache_ttl`
   * filter returned, or None when `apply_filters` is not loaded; the TTL is
   * never negative.
   */
  function CacheTtl(filtered: Option<Value>): (ttl: nat)
    ensures filtered.None? ==> ttl == DefaultCacheTtl
    ensures filtered.Some? ==> ttl >= IntCast(filtered.value) && (ttl == 0 || ttl == IntCast(filtered.value))
  {
    var requested := if filtered.Some? then IntCast(filtered.value) else DefaultCacheTtl;
    if requested < 0 then 0 else requested
  }

  /**
   * What `getCachedSize` returns: an object-cache hit wins; otherwise a local
   * entry serves until (and including) its expiry second.
   */
  function CachedSize(objectCache: bool, external: map<string, ExternalEntry>, local: map<string, LocalEntry>,
                      key: string, now: int): Option<int>
  {
    if objectCache && key in external then Some(external[key].value)
    else if key !in local || local[key].expiresAt < now then None
    else Some(local[key].value)
  }

  /** The process-wide map after `getCachedSize`: an expired entry for the key is removed. */
  function LocalAfterLookup(objectCache: bool, external: map<string, ExternalEntry>, local: map<string, LocalEntry>,
                            key: string, now: int): map<string, LocalEntry>
  {
    if objectCache && key in external then local
    else if key in local && local[key].expiresAt < now then local - {key}
    else local
  }

  /** The process-wide map after `setCachedSize`. */
  function LocalAfterStore(local: map<string, LocalEntry>, key: string, value: int, now: int, ttl: nat)
    : map<string, LocalEntry>
  {
    if ttl <= 0 then local else local[key := LocalEntry(value, now + ttl)]
  }

  /** The object cache after `setCachedSize`. */
  function ExternalAfterStore(objectCache: bool, external: map<string, ExternalEntry>, key: string, value: int, ttl: nat)
    : map<string, ExternalEntry>
  {
    if ttl <= 0 || !objectCache then external else external[key := ExternalEntry(value, ttl)]
  }

  /** A stored size is served again at every second up to its expiry, from either tier. */
  lemma StoredSizeIsServed(objectCache: bool, external: map<string, ExternalEntry>, local: map<string, LocalEntry>,
                           key: string, value: int, now: int, ttl: nat, later: int)
    requires ttl > 0 && later <= now + ttl
    ensures CachedSize(objectCache, ExternalAfterStore(objectCache, external, key, value, ttl),
                       LocalAfterStore(local, key, value, now, ttl), key, later) == Some(value)
  {
  }

  /** Without an object-cache entry, an expired local entry is a miss and is evicted. */
  lemma ExpiredEntryIsEvicted(objectCache: bool, external: map<string, ExternalEntry>, local: map<string, LocalEntry>,
                              key: string, now: int)
    requires !(objectCache && key in external)
    requires key in local && local[key].expiresAt < now
    ensures CachedSize(objectCache, external, local, key, now) == None
    ensures LocalAfterLookup(objectCache, external, local, key, now) == local - {key}
    ensures CachedSize(objectCache, external, LocalAfterLookup(objectCache, external, local, key, now), key, now) == None
  {
  }

  /** A lookup only drops entries that were already misses, so repeating it answers the same. */
  lemma LookupIsStable(objectCache: bool, external: map<string, ExternalEntry>, local: map<string, LocalEntry>,
                       key: string, now: int)
    ensures CachedSize(objectCache, external, LocalAfterLookup(objectCache, external, local, key, now), key, now)
         == CachedSize(objectCache, external, local, key, now)
  {
  }

  /** A TTL of zero writes neither tier. */
  lemma ZeroTtlStoresNothing(objectCache: bool, external: map<string, ExternalEntry>, local: map<string, LocalEntry>,
                             key: string, value: int, now: int)
    ensures LocalAfterStore(local, key, value, now, 0) == local
    ensures ExternalAfterStore(objectCache, external, key, value, 0) == external
  {
  }

  /** `available()`: the metric runs when the global `$wpdb` is a `wpdb`. */
  predicate Available(db: Option<Wpdb>) {
    db.Some?
  }

  class SizeMetric {
    /** `self::$sizeCache`. */
    var sizeCache: map<string, LocalEntry>
    /** The object cache's entries in the `vigilant_healthchecks_database_size` group. */
    var objectCacheEntries: map<string, ExternalEntry>
    /** Whether `wp_cache_get` and `wp_cache_set` exist. */
    const objectCache: bool
    /** How many times `SHOW TABLE STATUS` has been queried. */
    ghost var scans: nat

    constructor(objectCache: bool, entries: map<string, ExternalEntry>, sizeCache: map<string, LocalEntry>)
      ensures this.objectCache == objectCache && objectCacheEntries == entries && this.sizeCache == sizeCache
      ensures scans == 0
    {
      this.objectCache := objectCache;
      objectCacheEntries := entries;
      this.sizeCache := sizeCache;
      scans := 0;
    }

    /** `getCachedSize` with `getExternalCache`. */
    method GetCachedSize(key: string, now: int) returns (r: Option<int>)
      modifies this`sizeCache
      ensures r == CachedSize(objectCache, objectCacheEntries, old(sizeCache), key, now)
      ensures sizeCache == LocalAfterLookup(objectCache, objectCacheEntries, old(sizeCache), key, now)
    {
      if objectCache && key in objectCacheEntries {
        return Some(objectCacheEntries[key].value);
      }
      if key !in sizeCache {
        return None;
      }
      var cache := sizeCache[key];
      if cache.expiresAt < now {
        sizeCache := sizeCache - {key};
        return None;
      }
      return Some(cache.value);
    }

    /** `setCachedSize` with `setExternalCache`. */
    method SetCachedSize(key: string, value: int, now: int, ttl: nat)
      modifies this`sizeCache, this`objectCacheEntries
      ensures sizeCache == LocalAfterStore(old(sizeCache), key, value, now, ttl)
      ensures objectCacheEntries == ExternalAfterStore(objectCache, old(objectCacheEntries), key, value, ttl)
    {
      if ttl <= 0 {
        return;
      }
      sizeCache := sizeCache[key := LocalEntry(value, now + ttl)];
      if objectCache {
        objectCacheEntries := objectCacheEntries[key := ExternalEntry(value, ttl)];
      }
    }

    /**
     * `calculateSize`: a cache hit is returned without checking the prefix or
     * scanning; otherwise an empty prefix and a non-array scan fail, and a
     * scanned total is stored under the prefix before it is returned.
     */
    method CalculateSize(db: Wpdb, now: int, ttl: nat) returns (r: Result<int>)
      modifies this`sizeCache, this`objectCacheEntries, this`scans
      ensures var hit := CachedSize(objectCache, old(objectCacheEntries), old(sizeCache), db.prefix, now);
        && (hit.Some? ==> r == Success(hit.value) && scans == old(scans)
                          && objectCacheEntries == old(objectCacheEntries)
                          && sizeCache == LocalAfterLookup(objectCache, old(objectCacheEntries), old(sizeCache), db.prefix, now))
        && (hit.None? && db.prefix == "" ==> r == Failure(NoPrefixError) && scans == old(scans))
        && (hit.None? && db.prefix != "" ==> scans == old(scans) + 1)
        && (hit.None? && db.prefix != "" && !db.tableStatus.Arr? ==> r == Failure(UnexpectedStatusError))
        && (hit.None? && (db.prefix == "" || !db.tableStatus.Arr?) ==>
              sizeCache == LocalAfterLookup(objectCache, old(objectCacheEntries), old(sizeCache), db.prefix, now))
        && (hit.None? && db.prefix != "" && db.tableStatus.Arr? ==>
              var total := TotalBytes(Rows(db.tableStatus.entries));
              && r == Success(total)
              && sizeCache == LocalAfterStore(LocalAfterLookup(objectCache, old(objectCacheEntries), old(sizeCache),
                                                               db.prefix, now), db.prefix, total, now, ttl)
              && objectCacheEntries == ExternalAfterStore(objectCache, old(objectCacheEntries), db.prefix, total, ttl))
      ensures r.Failure? ==> objectCacheEntries == old(objectCacheEntries)
    {
      var cacheKey := db.prefix;
      var cached := GetCachedSize(cacheKey, now);
      if cached.Some? {
        return Success(cached.value);
      }
      if db.prefix == "" {
        return Failure(NoPrefixError);
      }
      scans := scans + 1;
      if !db.tableStatus.Arr? {
        return Failure(UnexpectedStatusError);
      }
      var total := SumTableSizes(Rows(db.tableStatus.entries));
      SetCachedSize(cacheKey, total, now, ttl);
      return Success(total);
    }

    /**
     * `measure()`: any of the three failures gives value 0 and an `error`
     * meta entry; success gives the size and no meta. The unit is always MB.
     */
    method Measure(db: Option<Wpdb>, now: int, filteredTtl: Option<Value>) returns (m: MetricData)
      modifies this`sizeCache, this`objectCacheEntries, this`scans
      ensures m.typeName == TypeName && m.unit == Unit
      ensures m.meta.Some? ==> m.value == 0 && m.meta == Some([Field("error", StrDatum(MeasureError))])
      ensures !Available(db) ==>
        && m.meta.Some? && scans == old(scans)
        && sizeCache == old(sizeCache) && objectCacheEntries == old(objectCacheEntries)
      ensures db.Some? ==>
        var hit := CachedSize(objectCache, old(objectCacheEntries), old(sizeCache), db.value.prefix, now);
        var lookedUp := LocalAfterLookup(objectCache, old(objectCacheEntries), old(sizeCache), db.value.prefix, now);
        && (hit.Some? ==> m == MetricData(TypeName, hit.value, Unit, None) && scans == old(scans))
        && (hit.None? ==> (m.meta.Some? <==> db.value.prefix == "" || !db.value.tableStatus.Arr?))
        && (hit.None? && db.value.prefix != "" ==> scans == old(scans) + 1)
        && (m.meta.Some? || hit.Some? ==> sizeCache == lookedUp && objectCacheEntries == old(objectCacheEntries))
        && (hit.None? && db.value.prefix != "" && db.value.tableStatus.Arr? ==>
              var total := TotalBytes(Rows(db.value.tableStatus.entries));
              && m.value == total
              && sizeCache == LocalAfterStore(lookedUp, db.value.prefix, total, now, CacheTtl(filteredTtl))
              && objectCacheEntries == ExternalAfterStore(objectCache, old(objectCacheEntries), db.value.prefix, total,
                                                          CacheTtl(filteredTtl)))
    {
      var sizeBytes: int;
      var failed := false;
      if db.None? {
        sizeBytes, failed := 0, true;
      } else {
        var calculated := CalculateSize(db.value, now, CacheTtl(filteredTtl));
        if calculated.Failure? {
          sizeBytes, failed := 0, true;
        } else {
          sizeBytes := calculated.value;
        }
      }
      var meta := if failed then Some([Field("error", StrDatum(MeasureError))]) else None;
      m := MetricData(TypeName, sizeBytes, Unit, meta);
    }
  }

  /**
   * Two measurements within the default TTL, on a site without an object
   * cache: both report the scanned total, and only the first one scans.
   */
  method MeasureTwice(db: Wpdb, now: int, later: int) returns (first: MetricData, second: MetricData, ghost scans: nat)
    requires db.prefix != "" && db.tableStatus.Arr?
    requires now <= later <= now + DefaultCacheTtl
    ensures first == second == MetricData(TypeName, TotalBytes(Rows(db.tableStatus.entries)), Unit, None)
    ensures scans == 1
  {
    var metric := new SizeMetric(false, map[], map[]);
    first := metric.Measure(Some(db), now, None);
    second := metric.Measure(Some(db), later, None);
    scans := metric.scans;
  }
}
