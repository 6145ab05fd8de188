/**
 * Properties of ingestion: which keys a report writes, what it writes under
 * them, when it raises, and that what was written before an error stays.
 */
module IngestionFacts {
  import opened Wrappers
  import opened Report
  import opened Cache
  import opened Ingestion

  /** Stores `a` and `b` agree on key `k`: both lack it, or both hold the same entry. */
  predicate SameAt(a: Store, b: Store, k: Key)
  {
    (k in a <==> k in b) && (k in a ==> a[k] == b[k])
  }

  /** Ingesting `s + t` is ingesting `s` and then, unless that raised, `t` from where `s` left off. */
  lemma {:induction false} IngestFlatAppend(store: Store, defaultTtl: int, now: int, s: seq<Tagged>, t: seq<Tagged>)
    ensures IngestFlat(store, defaultTtl, now, s + t) ==
      var o := IngestFlat(store, defaultTtl, now, s);
      if o.error.Some? then o else IngestFlat(o.entries, defaultTtl, now, t)
    decreases |s|
  {
    if s == [] {
      assert s + t == t;
    } else {
      assert (s + t)[0] == s[0];
      assert (s + t)[1..] == s[1..] + t;
      if RecordError(s[0].1).None? {
        IngestFlatAppend(store[RecordKey(s[0]) := RecordEntry(defaultTtl, now, s[0].1)], defaultTtl, now, s[1..], t);
      }
    }
  }

  /** A run of records raises nothing exactly when every record in it is well formed. */
  lemma {:induction false} IngestFlatSucceeds(store: Store, defaultTtl: int, now: int, s: seq<Tagged>)
    ensures IngestFlat(store, defaultTtl, now, s).error.None? <==> forall i :: 0 <= i < |s| ==> RecordError(s[i].1).None?
    decreases |s|
  {
    if s != [] && RecordError(s[0].1).None? {
      var next := store[RecordKey(s[0]) := RecordEntry(defaultTtl, now, s[0].1)];
      IngestFlatSucceeds(next, defaultTtl, now, s[1..]);
      assert forall i :: 1 <= i < |s| ==> s[i] == s[1..][i - 1];
    }
  }

  /**
   * When record `j` is the first malformed one, ingestion raises its error and
   * leaves exactly the writes of the records before it: nothing is rolled back
   * and nothing after it is applied.
   */
  lemma IngestFlatFirstError(store: Store, defaultTtl: int, now: int, s: seq<Tagged>, j: nat)
    requires j < |s|
    requires forall i :: 0 <= i < j ==> RecordError(s[i].1).None?
    requires RecordError(s[j].1).Some?
    ensures IngestFlat(store, defaultTtl, now, s[..j]).error.None?
    ensures IngestFlat(store, defaultTtl, now, s) ==
      Outcome(IngestFlat(store, defaultTtl, now, s[..j]).entries, RecordError(s[j].1))
  {
    IngestFlatSucceeds(store, defaultTtl, now, s[..j]);
    assert s == s[..j] + s[j..];
    IngestFlatAppend(store, defaultTtl, now, s[..j], s[j..]);
  }

  /** A key that no record names keeps whatever entry it had, or stays absent. */
  lemma {:induction false} IngestFlatUntouched(store: Store, defaultTtl: int, now: int, s: seq<Tagged>, k: Key)
    requires forall i :: 0 <= i < |s| ==> !Names(s[i], k)
    ensures SameAt(store, IngestFlat(store, defaultTtl, now, s).entries, k)
    decreases |s|
  {
    if s != [] && RecordError(s[0].1).None? {
      var next := store[RecordKey(s[0]) := RecordEntry(defaultTtl, now, s[0].1)];
      assert !Names(s[0], k);
      assert forall i :: 0 <= i < |s[1..]| ==> s[1..][i] == s[i + 1];
      IngestFlatUntouched(next, defaultTtl, now, s[1..], k);
    }
  }

  /**
   * After a run that raised nothing, a key holds the entry of the last record
   * that names it: a later record for the same key overwrites an earlier one.
   */
  lemma IngestFlatLastWrite(store: Store, defaultTtl: int, now: int, s: seq<Tagged>, j: nat, k: Key)
    requires j < |s| && Names(s[j], k)
    requires forall i :: j < i < |s| ==> !Names(s[i], k)
    requires IngestFlat(store, defaultTtl, now, s).error.None?
    ensures RecordError(s[j].1).None?
    ensures k in IngestFlat(store, defaultTtl, now, s).entries
    ensures IngestFlat(store, defaultTtl, now, s).entries[k] == RecordEntry(defaultTtl, now, s[j].1)
  {
    IngestFlatSucceeds(store, defaultTtl, now, s);
    var upTo := s[..j + 1];
    var after := s[j + 1..];
    assert s == upTo + after;
    IngestFlatAppend(store, defaultTtl, now, upTo, after);
    assert upTo == s[..j] + [s[j]];
    IngestFlatAppend(store, defaultTtl, now, s[..j], [s[j]]);
    IngestFlatSucceeds(store, defaultTtl, now, s[..j]);
    var before := IngestFlat(store, defaultTtl, now, s[..j]);
    assert IngestFlat(store, defaultTtl, now, upTo).entries == before.entries[k := RecordEntry(defaultTtl, now, s[j].1)];
    IngestFlatUntouched(IngestFlat(store, defaultTtl, now, upTo).entries, defaultTtl, now, after, k);
  }

  /**
   * The flattened section holds exactly the records of the report, each
   * tagged with the business object it was listed under.
   */
  lemma {:induction false} FlattenMembers(items: BusinessUseCaseUsage, p: Tagged)
    ensures p in Flatten(items) <==>
      exists a, b :: 0 <= a < |items| && 0 <= b < |items[a].1| && p == (items[a].0, items[a].1[b])
    decreases |items|
  {
    if items != [] {
      FlattenMembers(items[1..], p);
      var head := Tag(items[0].0, items[0].1);
      assert Flatten(items) == head + Flatten(items[1..]);
      if p in head {
        var b :| 0 <= b < |head| && head[b] == p;
        assert p == (items[0].0, items[0].1[b]);
      } else if p in Flatten(items[1..]) {
        var a, b :| 0 <= a < |items[1..]| && 0 <= b < |items[1..][a].1| && p == (items[1..][a].0, items[1..][a].1[b]);
        assert items[1..][a] == items[a + 1];
      }
      if exists a, b :: 0 <= a < |items| && 0 <= b < |items[a].1| && p == (items[a].0, items[a].1[b]) {
        var a, b :| 0 <= a < |items| && 0 <= b < |items[a].1| && p == (items[a].0, items[a].1[b]);
        if a == 0 {
          assert head[b] == p;
        } else {
          assert items[1..][a - 1] == items[a];
        }
      }
    }
  }

  /** Key `k` is named by the report: by a usage record, or as the gauge of a section present. */
  predicate Mentions(h: Headers, k: Key)
  {
    || (h.businessUseCaseUsage.Some? &&
        exists i :: 0 <= i < |Flatten(h.businessUseCaseUsage.value)| && Names(Flatten(h.businessUseCaseUsage.value)[i], k))
    || (h.adAccountUsage.Some? && k == AdAccountUsageKey)
    || (h.appUsage.Some? && k == AppUsageKey)
  }

  /** A report with none of the three recognised headers leaves the cache as it was. */
  lemma IngestNoSections(store: Store, defaultTtl: int, now: int, h: Headers)
    requires h.businessUseCaseUsage.None? && h.adAccountUsage.None? && h.appUsage.None?
    ensures Ingest(store, defaultTtl, now, h) == Outcome(store, None)
  {
  }

  /** Only keys the report names are written; every other key keeps its entry or stays absent. */
  lemma IngestFrame(store: Store, defaultTtl: int, now: int, h: Headers, k: Key)
    requires !Mentions(h, k)
    ensures SameAt(store, Ingest(store, defaultTtl, now, h).entries, k)
  {
    if h.businessUseCaseUsage.Some? {
      IngestFlatUntouched(store, defaultTtl, now, Flatten(h.businessUseCaseUsage.value), k);
    }
  }

  /**
   * A report raises nothing exactly when every usage record carries its type,
   * its regain estimate and at least one metric, the ad-account section
   * carries `acc_id_util_pct`, and the app-usage section is not empty.
   */
  lemma IngestSucceeds(store: Store, defaultTtl: int, now: int, h: Headers)
    ensures Ingest(store, defaultTtl, now, h).error.None? <==>
      && (h.businessUseCaseUsage.Some? ==>
            var s := Flatten(h.businessUseCaseUsage.value);
            forall i :: 0 <= i < |s| ==> RecordError(s[i].1).None?)
      && (h.adAccountUsage.Some? ==> AccIdUtilPctField in h.adAccountUsage.value)
      && (h.appUsage.Some? ==> h.appUsage.value != map[])
  {
    if h.businessUseCaseUsage.Some? {
      IngestFlatSucceeds(store, defaultTtl, now, Flatten(h.businessUseCaseUsage.value));
    }
  }

  /**
   * A malformed usage record stops the whole report at that record: its error
   * is raised, the records before it stay written, and the sections after it
   * are not looked at.
   */
  lemma IngestStopsAtFirstBadRecord(store: Store, defaultTtl: int, now: int, h: Headers, j: nat)
    requires h.businessUseCaseUsage.Some?
    requires var s := Flatten(h.businessUseCaseUsage.value);
      && j < |s| && RecordError(s[j].1).Some?
      && forall i :: 0 <= i < j ==> RecordError(s[i].1).None?
    ensures var s := Flatten(h.businessUseCaseUsage.value);
      Ingest(store, defaultTtl, now, h) == Outcome(IngestFlat(store, defaultTtl, now, s[..j]).entries, RecordError(s[j].1))
  {
    IngestFlatFirstError(store, defaultTtl, now, Flatten(h.businessUseCaseUsage.value), j);
  }

  /**
   * A gauge section that raises keeps every write of the sections before it:
   * a missing `acc_id_util_pct` or an empty app-usage object changes nothing
   * beyond what the earlier sections wrote.
   */
  lemma IngestGaugeErrorKeepsEarlierWrites(store: Store, defaultTtl: int, now: int, h: Headers)
    requires BusinessUseCaseStep(store, defaultTtl, now, h).error.None?
    ensures h.adAccountUsage.Some? && AccIdUtilPctField !in h.adAccountUsage.value ==>
      Ingest(store, defaultTtl, now, h) ==
        Outcome(BusinessUseCaseStep(store, defaultTtl, now, h).entries, Some(MissingField(AccIdUtilPctField)))
    ensures (h.adAccountUsage.Some? ==> AccIdUtilPctField in h.adAccountUsage.value) && h.appUsage.Some? && h.appUsage.value == map[] ==>
      var kept := BusinessUseCaseStep(store, defaultTtl, now, h).entries;
      Ingest(store, defaultTtl, now, h) ==
        Outcome(if h.adAccountUsage.Some?
                then kept[AdAccountUsageKey := Entry(h.adAccountUsage.value[AccIdUtilPctField], now + defaultTtl)]
                else kept,
                Some(EmptyMax))
  {
  }

  /**
   * After a report that raised nothing, the ad-account gauge holds
   * `acc_id_util_pct` and the app-usage gauge the largest app-usage value,
   * each for the cache-wide ttl.
   */
  lemma IngestGauges(store: Store, defaultTtl: int, now: int, h: Headers)
    requires Ingest(store, defaultTtl, now, h).error.None?
    ensures var r := Ingest(store, defaultTtl, now, h).entries;
      h.adAccountUsage.Some? ==>
        AccIdUtilPctField in h.adAccountUsage.value && AdAccountUsageKey in r &&
        r[AdAccountUsageKey] == Entry(h.adAccountUsage.value[AccIdUtilPctField], now + defaultTtl)
    ensures var r := Ingest(store, defaultTtl, now, h).entries;
      h.appUsage.Some? ==>
        h.appUsage.value != map[] && AppUsageKey in r && r[AppUsageKey].expiresAt == now + defaultTtl &&
        r[AppUsageKey].value in h.appUsage.value.Values &&
        forall f :: f in h.appUsage.value ==> h.appUsage.value[f] <= r[AppUsageKey].value
  {
    assert AdAccountUsageKey != AppUsageKey;
  }

  /**
   * After a report that raised nothing, a (business object, type) key holds
   * the entry of the last usage record that names it.
   */
  lemma IngestBusinessUseCase(store: Store, defaultTtl: int, now: int, h: Headers, j: nat, k: Key)
    requires h.businessUseCaseUsage.Some?
    requires Ingest(store, defaultTtl, now, h).error.None?
    requires var s := Flatten(h.businessUseCaseUsage.value);
      && j < |s| && Names(s[j], k)
      && forall i :: j < i < |s| ==> !Names(s[i], k)
    ensures var s := Flatten(h.businessUseCaseUsage.value);
      && RecordError(s[j].1).None?
      && k in Ingest(store, defaultTtl, now, h).entries
      && Ingest(store, defaultTtl, now, h).entries[k] == RecordEntry(defaultTtl, now, s[j].1)
  {
    var s := Flatten(h.businessUseCaseUsage.value);
    IngestFlatLastWrite(store, defaultTtl, now, s, j, k);
    assert k.BusinessUseCase?;
  }
}
