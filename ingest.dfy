/**
 * What `update_from_headers` does to the cache's entries, stated on values:
 * the keys of the store, the errors a report can raise, and the outcome of
 * ingesting a report, section by section and record by record.
 */
module Ingestion {
  import opened Wrappers
  import opened Report
  import opened Cache

  /**
   * A throttled resource: a (business object id, usage type) pair, or one of
   * the flat gauges named by a string.
   */
  datatype Key = BusinessUseCase(businessObjectId: string, usageType: string) | Gauge(name: string)

  const AdAccountUsageKey := Gauge("ad-account-usage")
  const AppUsageKey := Gauge("app-usage")

  /** The cache's entries by key. */
  type Store = map<Key, Entry>

  /**
   * The exceptions ingestion raises on a malformed report: the KeyError of a
   * missing field, and the ValueError of `max` over an empty object.
   */
  datatype UpdateError = MissingField(field: string) | EmptyMax

  /** The entries after an ingestion, and the error that stopped it, if any. */
  datatype Outcome = Outcome(entries: Store, error: Option<UpdateError>)

  /** A usage record together with the business object id it was reported under. */
  type Tagged = (string, UsageRecord)

  /** The error a usage record raises, checked in the order the fields are popped. */
  function RecordError(rec: UsageRecord): Option<UpdateError>
  {
    if rec.usageType.None? then Some(MissingField(TypeField))
    else if RegainField !in rec.fields then Some(MissingField(RegainField))
    else if Metrics(rec) == map[] then Some(EmptyMax)
    else None
  }

  /** The key a usage record is stored under. */
  function RecordKey(p: Tagged): Key
    requires p.1.usageType.Some?
  {
    BusinessUseCase(p.0, p.1.usageType.value)
  }

  /** Whether usage record `p` names key `k`. */
  predicate Names(p: Tagged, k: Key)
  {
    p.1.usageType.Some? && k == RecordKey(p)
  }

  /**
   * The entry a well-formed usage record is stored as: the largest of its
   * metrics, kept for the cache-wide ttl when no regain estimate is given and
   * for one minute past the estimate otherwise.
   */
  function RecordEntry(defaultTtl: int, now: int, rec: UsageRecord): (e: Entry)
    requires RecordError(rec).None?
    ensures e.value in Metrics(rec).Values
    ensures forall f :: f in Metrics(rec) ==> Metrics(rec)[f] <= e.value
    ensures rec.fields[RegainField] == 0 ==> e.expiresAt == now + defaultTtl
    ensures rec.fields[RegainField] != 0 ==> e.expiresAt == now + (rec.fields[RegainField] + 1) * 60
  {
    var regain := rec.fields[RegainField];
    var ttl := if regain == 0 then defaultTtl else (regain + 1) * 60;
    Entry(MaxValue(Metrics(rec)), now + ttl)
  }

  /** The records of one business object, each tagged with its id. */
  function Tag(id: string, recs: seq<UsageRecord>): seq<Tagged>
  {
    seq(|recs|, i requires 0 <= i < |recs| => (id, recs[i]))
  }

  /** The business-use-case section as one sequence of records, in the order they are visited. */
  function Flatten(items: BusinessUseCaseUsage): seq<Tagged>
  {
    if items == [] then [] else Tag(items[0].0, items[0].1) + Flatten(items[1..])
  }

  /** Ingesting usage records one after another, stopping at the first that raises. */
  function IngestFlat(store: Store, defaultTtl: int, now: int, s: seq<Tagged>): Outcome
    decreases |s|
  {
    if s == [] then Outcome(store, None)
    else
      match RecordError(s[0].1)
      case Some(err) => Outcome(store, Some(err))
      case None =>
        IngestFlat(store[RecordKey(s[0]) := RecordEntry(defaultTtl, now, s[0].1)], defaultTtl, now, s[1..])
  }

  /** The ad-account section: its `acc_id_util_pct` stored under the ad-account gauge. */
  function AdAccountStep(store: Store, defaultTtl: int, now: int, d: Object): Outcome
  {
    if AccIdUtilPctField in d then Outcome(store[AdAccountUsageKey := Entry(d[AccIdUtilPctField], now + defaultTtl)], None)
    else Outcome(store, Some(MissingField(AccIdUtilPctField)))
  }

  /** The app-usage section: the largest of its values stored under the app-usage gauge. */
  function AppUsageStep(store: Store, defaultTtl: int, now: int, d: Object): Outcome
  {
    if d == map[] then Outcome(store, Some(EmptyMax))
    else Outcome(store[AppUsageKey := Entry(MaxValue(d), now + defaultTtl)], None)
  }

  /** The business-use-case section, or nothing when the header is absent. */
  function BusinessUseCaseStep(store: Store, defaultTtl: int, now: int, h: Headers): Outcome
  {
    if h.businessUseCaseUsage.Some? then IngestFlat(store, defaultTtl, now, Flatten(h.businessUseCaseUsage.value))
    else Outcome(store, None)
  }

  /** The ingestion of a whole report: the three sections in turn, stopping at the first error. */
  function Ingest(store: Store, defaultTtl: int, now: int, h: Headers): Outcome
  {
    var afterBuc := BusinessUseCaseStep(store, defaultTtl, now, h);
    if afterBuc.error.Some? then afterBuc
    else
      var afterAd := if h.adAccountUsage.Some? then AdAccountStep(afterBuc.entries, defaultTtl, now, h.adAccountUsage.value) else afterBuc;
      if afterAd.error.Some? then afterAd
      else if h.appUsage.Some? then AppUsageStep(afterAd.entries, defaultTtl, now, h.appUsage.value)
      else afterAd
  }
}
