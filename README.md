# Facebook API rate limiter: the usage-tracking strategy

This project models the core of `fb_rate_limiter`, a Python library that
throttles calls to the Facebook Graph API by the usage the API reports back in
its response headers. The model covers the `Strategy` object and the per-entry
TTL insert it relies on.

- **The cache** (`Cache.TtlCache`, after `MyTTLCache`) is a keyed store. Each
  entry holds a usage percentage and its expiry instant. There is one cache-wide
  default time-to-live. `TtlSet` inserts an entry with its own time-to-live by
  overriding the default and then restoring it.
- **Ingestion** (`RateLimit.Strategy.UpdateFromHeaders`) reads three headers,
  each optional, taken as already parsed.
  - Business-use-case usage: every (business object id, type) pair gets the
    largest of that record's remaining metrics. It is kept for the default ttl
    when `estimated_time_to_regain_access` is 0, and for `(e + 1) * 60`
    otherwise.
  - Ad-account usage: `acc_id_util_pct` is stored under `"ad-account-usage"`.
  - App usage: the largest value is stored under `"app-usage"`.
  - A missing field raises a KeyError and `max` over no values raises a
    ValueError (`UpdateError`). Writes made before the error stay.
- **Admission** (`Check`, `CheckKeys`): a key that is absent or expired is
  admitted. A live key is admitted only while its percentage is strictly
  below the threshold. A batch is admitted only when every key is admitted.

The method is proved against value-level functions in `Ingestion`
(`Ingest`, `IngestFlat`, `RecordEntry`). The properties of ingestion are
lemmas about those functions, in `IngestionFacts`.

Modelling choices:
- Time is an explicit parameter `now` (an integer). The real clock is a
  monotonic timer inside the cache library.
- An entry written at `now` with ttl `t` expires at `now + t`. It is live
  exactly while the clock is strictly before that instant. The boundary
  belongs to the cache library, and this model fixes it this way.
- A usage record is its `type` (a string, optional) plus a map of its numeric
  fields, `estimated_time_to_regain_access` among them. Popping a field is
  taking it out of that map (`Report.Metrics`).
- A JSON object is `map<string, int>`. The business-use-case section is the
  sequence of (id, records) pairs in the order of the JSON object, because
  records are visited in that order.
- Keys are `Ingestion.Key`: a `(business object id, type)` pair, or a gauge named
  by a string (`"ad-account-usage"`, `"app-usage"`).

## Model

| member | source | states |
|---|---|---|
| Report.FromValue | fb_rate_limiter/__init__.py:11-18 | looking up a usage type by its string value finds the member with that value, or none when no member has it |
| Report.MaxValue | fb_rate_limiter/__init__.py:49 | `max` of a non-empty object's values is one of its values and no value exceeds it |
| Report.Metrics | fb_rate_limiter/__init__.py:41-44 | after the regain estimate is popped, exactly the other numeric fields remain, with their values |
| Cache.TtlCache.constructor | fb_rate_limiter/__init__.py:31 | a new cache is empty and has the given maxsize and default ttl |
| Cache.TtlCache.Get | fb_rate_limiter/__init__.py:68 | a read gives the stored value while the entry is live, and nothing when the key is absent or the entry has expired |
| Cache.TtlCache.Put | fb_rate_limiter/__init__.py:57 | an ordinary insert keeps the value for the default ttl from `now`; reads of every other key are unchanged and the default ttl is unchanged |
| Cache.TtlCache.TtlSet | fb_rate_limiter/__init__.py:22-26 | an insert with its own ttl maps the key to the value until `now + ttl`; reads of other keys are unchanged and the default ttl afterwards equals the one before |
| RateLimit.Strategy.constructor | fb_rate_limiter/__init__.py:30-32 | a new strategy has an empty cache with maxsize 10000 and ttl 60 and threshold 80 unless given others |
| RateLimit.Strategy.UpdateFromHeaders | fb_rate_limiter/__init__.py:34-62 | the new entries and the raised error are exactly those of `Ingest` on the old entries; the default ttl is unchanged |
| RateLimit.Strategy.Check | fb_rate_limiter/__init__.py:67-71 | an absent or expired key admits; a live key admits exactly when its percentage is strictly below the threshold, so a value equal to the threshold blocks |
| RateLimit.Strategy.CheckKeys | fb_rate_limiter/__init__.py:64-65 | a batch admits exactly when every key admits: one blocked key blocks it, and an empty batch admits |
| Ingestion.RecordEntry | fb_rate_limiter/__init__.py:45-52 | a record is stored as the largest of its metrics; it expires after the default ttl when its regain estimate is 0 and after `(e + 1) * 60` otherwise |
| IngestionFacts.IngestFlatAppend | fb_rate_limiter/__init__.py:39-52 | ingesting two runs of records is ingesting the first and, unless it raised, the second from where the first left off |
| IngestionFacts.IngestFlatSucceeds | fb_rate_limiter/__init__.py:40-52 | a run of records raises nothing exactly when every record has its type, its regain estimate and at least one metric |
| IngestionFacts.IngestFlatFirstError | fb_rate_limiter/__init__.py:40-52 | the first malformed record's error is raised; the records before it stay written and none after it is applied |
| IngestionFacts.IngestFlatUntouched | fb_rate_limiter/__init__.py:50-52 | a key no record names keeps its entry or stays absent |
| IngestionFacts.IngestFlatLastWrite | fb_rate_limiter/__init__.py:39-52 | after a run with no error, a key holds the entry of the last record naming it, so a later record overwrites an earlier one |
| IngestionFacts.FlattenMembers | fb_rate_limiter/__init__.py:39-40 | the records visited are exactly the records of every business object, each tagged with its id |
| IngestionFacts.IngestNoSections | fb_rate_limiter/__init__.py:37-62 | a report with none of the three headers leaves the cache unchanged and raises nothing |
| IngestionFacts.IngestFrame | fb_rate_limiter/__init__.py:37-62 | only keys named by a record or by a present gauge section are written |
| IngestionFacts.IngestSucceeds | fb_rate_limiter/__init__.py:37-62 | a report raises nothing exactly when all records are well formed, `acc_id_util_pct` is present when its section is, and the app-usage object is not empty |
| IngestionFacts.IngestStopsAtFirstBadRecord | fb_rate_limiter/__init__.py:39-52 | a malformed record raises its error; the earlier records stay written and the later records and the gauge sections are not applied |
| IngestionFacts.IngestGaugeErrorKeepsEarlierWrites | fb_rate_limiter/__init__.py:54-62 | a missing `acc_id_util_pct` or an empty app-usage object raises and keeps every write made before it |
| IngestionFacts.IngestGauges | fb_rate_limiter/__init__.py:54-62 | after a report with no error, `"ad-account-usage"` holds `acc_id_util_pct` and `"app-usage"` the largest app-usage value, each for the default ttl |
| IngestionFacts.IngestBusinessUseCase | fb_rate_limiter/__init__.py:39-52 | after a report with no error, a (business object, type) key holds the entry of the last record naming it |
| RateLimit.SingleUsageStores | fb_rate_limiter/__init__.py:45-52 | a report of one record whose metrics all equal `pct` stores `pct` for the ttl its regain estimate selects |
| RateLimit.ThresholdScenario | tests/test_rate_limiter.py:8-29 | with threshold 50, a report of 30 admits; a report of 60 with regain estimate 2 blocks until three minutes later and then admits |
| RateLimit.BatchScenario | fb_rate_limiter/__init__.py:64-71 | keys at 90 and 10 under threshold 50 block the batch; when the first is reported at 10, the batch admits |

## Left out

- `RateLimiter.acquire` and `RateLimiter.update_from_headers` (fb_rate_limiter/__init__.py:74-90) are left out. They only add a condition variable, a polling `wait_for` and a `notify` around the strategy. `acquire` waits until `Strategy.CheckKeys` holds for its keys.
- JSON decoding and looking up the header strings are left out. A report is taken as already parsed (`Report.Headers`). Malformed JSON and non-integer field values are not modelled.
- Floating-point usage values are modelled as integers.
- The cache library's `maxsize` is kept as a constant but never acted on. It evicts the least-recently-used entry when full, and it refuses every insert when `maxsize` is 0. In that case `ttl_set` also leaves the overridden ttl in place, because it does not restore the ttl in a `finally`. Neither behaviour is modelled.
- The cache library drops expired entries on every insert. The model keeps them and reads them as absent. Reads at or after the insert's `now` do not differ.
- Cache.TtlCache.Get: does not model the library's own expiry boundary. An entry counts as expired from its expiry instant on.
- The code has no decaying values, no freezing, no per-admission increment and no insights-throttle gauge, so the model has none either.
- `setup.py` and the demo drivers `example.py` and `tests/test_rate_limiter.py` are left out. The test file's threshold-50, single-record pattern is replayed as `RateLimit.ThresholdScenario`.
