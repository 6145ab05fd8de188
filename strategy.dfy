/**
 * The usage-tracking strategy: a TTL cache of usage percentages and the
 * admission threshold they are compared with.
 */
module RateLimit {
  import opened Wrappers
  import opened Report
  import opened Cache
  import opened Ingestion

  class Strategy {
    const cache: TtlCache<Key>
    const threshold: int

    constructor (maxsize: nat := 10000, ttl: int := 60, threshold: int := 80)
      ensures fresh(cache)
      ensures cache.entries == map[] && cache.ttl == ttl && cache.maxsize == maxsize
      ensures this.threshold == threshold
    {
      cache := new TtlCache(maxsize, ttl);
      this.threshold := threshold;
    }

    /**
     * Ingests a usage report received at `now`. Records are written in the
     * order they appear; on an error the writes made before it stay in place
     * and nothing after it is looked at.
     */
    method UpdateFromHeaders(headers: Headers, now: int) returns (err: Option<UpdateError>)
      modifies cache
      ensures cache.ttl == old(cache.ttl)
      ensures Outcome(cache.entries, err) == Ingest(old(cache.entries), cache.ttl, now, headers)
    {
      if headers.businessUseCaseUsage.Some? {
        var items := headers.businessUseCaseUsage.value;
        ghost var target := IngestFlat(cache.entries, cache.ttl, now, Flatten(items));
        var i := 0;
        while i < |items|
          invariant 0 <= i <= |items|
          invariant cache.ttl == old(cache.ttl)
          invariant IngestFlat(cache.entries, cache.ttl, now, Flatten(items[i..])) == target
        {
          var id := items[i].0;
          var records := items[i].1;
          assert items[i..] == [items[i]] + items[i + 1..];
          assert Flatten(items[i..]) == Tag(id, records) + Flatten(items[i + 1..]);
          var j := 0;
          while j < |records|
            invariant 0 <= j <= |records|
            invariant cache.ttl == old(cache.ttl)
            invariant IngestFlat(cache.entries, cache.ttl, now, Tag(id, records[j..]) + Flatten(items[i + 1..])) == target
          {
            var rec := records[j];
            ghost var rest := Tag(id, records[j..]) + Flatten(items[i + 1..]);
            assert rest == [(id, rec)] + (Tag(id, records[j + 1..]) + Flatten(items[i + 1..]));
            if rec.usageType.None? {
              return Some(MissingField(TypeField));
            }
            var usageType := rec.usageType.value;
            if RegainField !in rec.fields {
              return Some(MissingField(RegainField));
            }
            var estimatedTimeToRegainAccess := rec.fields[RegainField];
            var metrics := rec.fields - {RegainField};
            var ttl;
            if estimatedTimeToRegainAccess == 0 {
              ttl := cache.ttl;
            } else {
              ttl := (estimatedTimeToRegainAccess + 1) * 60;
            }
            if metrics == map[] {
              return Some(EmptyMax);
            }
            var maxPercentage := MaxValue(metrics);
            cache.TtlSet(BusinessUseCase(id, usageType), maxPercentage, ttl, now);
            j := j + 1;
          }
          assert Tag(id, records[j..]) + Flatten(items[i + 1..]) == Flatten(items[i + 1..]);
          i := i + 1;
        }
      }
      if headers.adAccountUsage.Some? {
        var d := headers.adAccountUsage.value;
        if AccIdUtilPctField !in d {
          return Some(MissingField(AccIdUtilPctField));
        }
        var accIdUtilPct := d[AccIdUtilPctField];
        cache.Put(AdAccountUsageKey, accIdUtilPct, now);
      }
      if headers.appUsage.Some? {
        var d := headers.appUsage.value;
        if d == map[] {
          return Some(EmptyMax);
        }
        var maxPercentage := MaxValue(d);
        cache.Put(AppUsageKey, maxPercentage, now);
      }
      return None;
    }

    /** `check_keys`: a batch is admitted exactly when every one of its keys is. */
    function CheckKeys(keys: seq<Key>, now: int): (r: bool)
      reads cache
      ensures r <==> forall i :: 0 <= i < |keys| ==> Check(keys[i], now)
    {
      if keys == [] then true else Check(keys[0], now) && CheckKeys(keys[1..], now)
    }

    /**
     * `check`: an absent or expired key is admitted; a live one only while
     * its stored percentage is strictly below the threshold.
     */
    function Check(key: Key, now: int): (r: bool)
      reads cache
      ensures key !in cache.entries || !Live(cache.entries[key], now) ==> r
      ensures key in cache.entries && Live(cache.entries[key], now) ==> (r <==> cache.entries[key].value < threshold)
    {
      match cache.Get(key, now)
      case None => true
      case Some(percentage) => percentage < threshold
    }
  }

  /** A report holding one usage record whose three metrics are all `pct`. */
  function SingleUsage(id: string, usageType: string, pct: int, regain: int): Headers
  {
    var fields := map["call_count" := pct, "total_cputime" := pct, "total_time" := pct, RegainField := regain];
    Headers(Some([(id, [UsageRecord(Some(usageType), fields)])]), None, None)
  }

  /** Ingesting such a report stores `pct` under its key, for the ttl its regain estimate selects. */
  lemma SingleUsageStores(store: Store, defaultTtl: int, now: int, id: string, usageType: string, pct: int, regain: int)
    ensures Ingest(store, defaultTtl, now, SingleUsage(id, usageType, pct, regain)) ==
      Outcome(store[BusinessUseCase(id, usageType) := Entry(pct, now + if regain == 0 then defaultTtl else (regain + 1) * 60)], None)
  {
    var h := SingleUsage(id, usageType, pct, regain);
    var rec := h.businessUseCaseUsage.value[0].1[0];
    assert Flatten(h.businessUseCaseUsage.value) == [(id, rec)];
    assert "call_count" in Metrics(rec);
    assert RecordError(rec).None?;
    var e := RecordEntry(defaultTtl, now, rec);
    assert e.value == pct;
    assert [(id, rec)][1..] == [];
    assert IngestFlat(store, defaultTtl, now, [(id, rec)]) == Outcome(store[BusinessUseCase(id, usageType) := e], None);
  }

  /**
   * The threshold-50 walk-through: a report of 30% admits; a report of 60%
   * with a two-minute regain estimate blocks for three minutes and admits
   * once that entry has expired.
   */
  method ThresholdScenario() returns (at30: bool, at60: bool, atExpiry: bool)
    ensures at30 && !at60 && atExpiry
  {
    var strategy := new Strategy(threshold := 50);
    var key := BusinessUseCase("business_id_xxx", "ads_insights");
    SingleUsageStores(strategy.cache.entries, 60, 0, "business_id_xxx", "ads_insights", 30, 0);
    var err := strategy.UpdateFromHeaders(SingleUsage("business_id_xxx", "ads_insights", 30, 0), 0);
    at30 := strategy.CheckKeys([key], 1);
    SingleUsageStores(strategy.cache.entries, 60, 10, "business_id_xxx", "ads_insights", 60, 2);
    err := strategy.UpdateFromHeaders(SingleUsage("business_id_xxx", "ads_insights", 60, 2), 10);
    at60 := strategy.CheckKeys([key], 189);
    atExpiry := strategy.CheckKeys([key], 190);
  }

  /**
   * Two keys at 90% and 10% under threshold 50 block the batch; once the
   * first is reported at 10% the batch is admitted.
   */
  method BatchScenario() returns (before: bool, after: bool)
    ensures !before && after
  {
    var strategy := new Strategy(threshold := 50);
    var busy := BusinessUseCase("acct1", "ads_insights");
    var idle := BusinessUseCase("acct2", "ads_management");
    SingleUsageStores(strategy.cache.entries, 60, 0, "acct1", "ads_insights", 90, 0);
    var err := strategy.UpdateFromHeaders(SingleUsage("acct1", "ads_insights", 90, 0), 0);
    SingleUsageStores(strategy.cache.entries, 60, 0, "acct2", "ads_management", 10, 0);
    err := strategy.UpdateFromHeaders(SingleUsage("acct2", "ads_management", 10, 0), 0);
    before := strategy.CheckKeys([busy, idle], 5);
    SingleUsageStores(strategy.cache.entries, 60, 5, "acct1", "ads_insights", 10, 0);
    err := strategy.UpdateFromHeaders(SingleUsage("acct1", "ads_insights", 10, 0), 5);
    after := strategy.CheckKeys([busy, idle], 6);
  }
}
