/**
 * The TTL cache the strategy keeps its usage percentages in, together with
 * the per-entry-TTL insert the library adds to it (`ttl_set`).
 *
 * Time is the explicit parameter `now`. An entry written at `now` with
 * time-to-live `ttl` expires at `now + ttl`, and is live exactly while the
 * clock is strictly before that instant.
 */
module Cache {
  import opened Wrappers

  /** A stored value and the instant it expires. */
  datatype Entry = Entry(value: int, expiresAt: int)

  /** A live entry is one whose expiry lies strictly after `now`. */
  predicate Live(e: Entry, now: int)
  {
    now < e.expiresAt
  }

  class TtlCache<K(==,!new)> {
    /** Every stored entry, expired ones included until they are read as absent. */
    var entries: map<K, Entry>
    /** The cache-wide time-to-live given to ordinary inserts. */
    var ttl: int
    const maxsize: nat

    constructor (maxsize: nat, ttl: int)
      ensures entries == map[]
      ensures this.ttl == ttl && this.maxsize == maxsize
    {
      this.maxsize := maxsize;
      this.ttl := ttl;
      entries := map[];
    }

    /** `cache.get(key)`: the stored value while its entry is live, otherwise absent. */
    function Get(key: K, now: int): (r: Option<int>)
      reads this
      ensures r.None? <==> key !in entries || entries[key].expiresAt <= now
      ensures r.Some? ==> r.value == entries[key].value
    {
      if key in entries && Live(entries[key], now) then Some(entries[key].value) else None
    }

    /** `cache[key] = value`: the entry expires one cache-wide ttl after `now`. */
    method Put(key: K, value: int, now: int)
      modifies this
      ensures entries == old(entries)[key := Entry(value, now + ttl)]
      ensures ttl == old(ttl)
      ensures forall t :: Get(key, t) == if t < now + ttl then Some(value) else None
      ensures forall k, t :: k != key ==> Get(k, t) == old(Get(k, t))
    {
      entries := entries[key := Entry(value, now + ttl)];
    }

    /**
     * `ttl_set(key, value, ttl)`: inserts with a one-off time-to-live by
     * overriding the cache-wide one for the insert and restoring it after.
     */
    method TtlSet(key: K, value: int, entryTtl: int, now: int)
      modifies this
      ensures entries == old(entries)[key := Entry(value, now + entryTtl)]
      ensures ttl == old(ttl)
      ensures forall t :: Get(key, t) == if t < now + entryTtl then Some(value) else None
      ensures forall k, t :: k != key ==> Get(k, t) == old(Get(k, t))
    {
      var originTtl := ttl;
      ttl := entryTtl;
      Put(key, value, now);
      ttl := originTtl;
    }
  }
}
