/**
  The freshness cache of timegate/cache.py: TimeMaps stored with the time at
  which they were stored, answered only while they are young enough, and
  written only when they are small enough.  Time is in whole seconds; the
  backend is a map from URI-R to entry; the size of an entry in memory
  (`sys.getsizeof`) is a function the cache is built with.
 */
module FreshCache {
  import opened Types

  /** The value stored in the backend: `(timestamp, timemap)`. */
  datatype Entry = Entry(timestamp: int, timemap: TimeMap)

  class Cache {
    /** How long (seconds) after it was stored an entry still answers. */
    const tolerance: int
    /** The largest entry size admitted; 0 means no limit. */
    const maxFileSize: int
    /** `CHECK_SIZE`: whether sizes are checked at all. */
    const checkSize: bool
    /** The size an entry takes in memory. */
    const sizeOf: Entry -> nat
    /** The key/value store the cache writes through to. */
    var backend: map<string, Entry>

    ghost predicate Valid()
      reads this
    {
      maxFileSize >= 0 && checkSize == (maxFileSize > 0)
    }

    /** `Cache.__init__`: a negative size limit counts as no limit.  The
        backend is whatever store the configuration names, with what it
        already holds. */
    constructor (cacheRefreshTime: int, maxFileSize: int, sizeOf: Entry -> nat, store: map<string, Entry>)
      ensures Valid()
      ensures tolerance == cacheRefreshTime
      ensures this.maxFileSize == if maxFileSize > 0 then maxFileSize else 0
      ensures this.sizeOf == sizeOf && backend == store
    {
      tolerance := cacheRefreshTime;
      this.maxFileSize := if maxFileSize > 0 then maxFileSize else 0;
      checkSize := maxFileSize > 0;
      this.sizeOf := sizeOf;
      backend := store;
    }

    /** An entry answers for `date` while `date <= timestamp + tolerance`. */
    predicate Fresh(e: Entry, date: int)
      reads this
    {
      date <= e.timestamp + tolerance
    }

    /** `get_until`: the stored TimeMap when there is one for `uriR` and it
        is still fresh for `date`; nothing otherwise. */
    function GetUntil(uriR: string, date: int): (r: Option<TimeMap>)
      reads this
      ensures r.Some? <==> uriR in backend && date <= backend[uriR].timestamp + tolerance
      ensures r.Some? ==> r.value == backend[uriR].timemap
    {
      if uriR in backend && Fresh(backend[uriR], date) then Some(backend[uriR].timemap) else None
    }

    /** `get_all`: `get_until` at the current time `now`. */
    function GetAll(uriR: string, now: int): (r: Option<TimeMap>)
      reads this
      ensures r.Some? <==> uriR in backend && now <= backend[uriR].timestamp + tolerance
      ensures r.Some? ==> r.value == backend[uriR].timemap
    {
      GetUntil(uriR, now)
    }

    /** `_check_size`: with no limit every entry passes; otherwise an entry
        fails exactly when it is larger than the limit. */
    function CheckSize(e: Entry): (ok: bool)
      requires Valid()
      reads this
      ensures maxFileSize == 0 ==> ok
      ensures maxFileSize > 0 ==> (ok <==> sizeOf(e) <= maxFileSize)
    {
      !checkSize || sizeOf(e) <= maxFileSize
    }

    /** The backend after `set(uriR, timemap)` at time `now`. */
    function Stored(uriR: string, timemap: TimeMap, now: int): (b: map<string, Entry>)
      requires Valid()
      reads this
      ensures CheckSize(Entry(now, timemap)) ==> uriR in b && b[uriR] == Entry(now, timemap)
      ensures !CheckSize(Entry(now, timemap)) ==> b == backend
      ensures forall k :: k != uriR ==> (k in b <==> k in backend)
      ensures forall k :: k != uriR && k in b ==> b[k] == backend[k]
    {
      var e := Entry(now, timemap);
      if CheckSize(e) then backend[uriR := e] else backend
    }

    /** `set`: stamp the TimeMap with the current time and store it, unless
        the size check refuses it. */
    method Set(uriR: string, timemap: TimeMap, now: int)
      requires Valid()
      modifies this`backend
      ensures Valid()
      ensures backend == old(Stored(uriR, timemap, now))
      ensures old(CheckSize(Entry(now, timemap))) && tolerance >= 0 ==> GetUntil(uriR, now) == Some(timemap)
    {
      var val := Entry(now, timemap);
      if CheckSize(val) {
        backend := backend[uriR := val];
      }
    }
  }

  /** An entry that answers for a date answers for every earlier date. */
  lemma FreshnessMonotone(c: Cache, uriR: string, earlier: int, later: int)
    requires earlier <= later
    requires c.GetUntil(uriR, later).Some?
    ensures c.GetUntil(uriR, earlier) == c.GetUntil(uriR, later)
  {
  }

  /** A write the size check admits is answered at the time it was made. */
  lemma StoredIsFresh(c: Cache, uriR: string, timemap: TimeMap, now: int)
    requires c.Valid() && c.tolerance >= 0
    requires c.CheckSize(Entry(now, timemap))
    ensures var b := c.Stored(uriR, timemap, now);
      uriR in b && c.Fresh(b[uriR], now) && b[uriR].timemap == timemap
  {
  }

  /** An entry written at `now` goes stale exactly after `now + tolerance`. */
  lemma StoredGoesStale(c: Cache, uriR: string, timemap: TimeMap, now: int, date: int)
    requires c.Valid()
    requires c.CheckSize(Entry(now, timemap))
    ensures var b := c.Stored(uriR, timemap, now);
      c.Fresh(b[uriR], date) <==> date <= now + c.tolerance
  {
  }
}
