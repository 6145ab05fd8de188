/**
 * The usage report a Graph API response carries in its headers, taken as
 * already parsed from JSON, and the `max(...)` over a JSON object's values
 * that the strategy applies to it.
 */
module Report {
  import opened Wrappers

  /** The business-use-case categories the library names (informational only). */
  datatype BUCRateLimitType =
    | AdsInsights | AdsManagement | CustomAudience | Instagram | Leadgen | Messenger | Pages
  {
    /** The enumeration member's string value. */
    function Value(): string
    {
      match this
      case AdsInsights => "ads_insights"
      case AdsManagement => "ads_management"
      case CustomAudience => "custom_audience"
      case Instagram => "instagram"
      case Leadgen => "leadgen"
      case Messenger => "messenger"
      case Pages => "pages"
    }
  }

  /** Looking a member up by its value, as calling the enumeration does; `None` stands for its ValueError. */
  function FromValue(s: string): (r: Option<BUCRateLimitType>)
    ensures r.Some? ==> r.value.Value() == s
    ensures r.None? ==> forall t: BUCRateLimitType :: t.Value() != s
  {
    if s == "ads_insights" then Some(AdsInsights)
    else if s == "ads_management" then Some(AdsManagement)
    else if s == "custom_audience" then Some(CustomAudience)
    else if s == "instagram" then Some(Instagram)
    else if s == "leadgen" then Some(Leadgen)
    else if s == "messenger" then Some(Messenger)
    else if s == "pages" then Some(Pages)
    else None
  }

  /** A JSON object with integer values. */
  type Object = map<string, int>

  const TypeField := "type"
  const RegainField := "estimated_time_to_regain_access"
  const AccIdUtilPctField := "acc_id_util_pct"

  /**
   * One entry of a business-use-case list: its "type" field (a string) and
   * every numeric field, "estimated_time_to_regain_access" included.
   */
  datatype UsageRecord = UsageRecord(usageType: Option<string>, fields: Object)

  /** The list of usage records reported for each business object, in the order of the JSON object. */
  type BusinessUseCaseUsage = seq<(string, seq<UsageRecord>)>

  /** The three headers the strategy recognises; `None` when a header is absent. */
  datatype Headers = Headers(
    businessUseCaseUsage: Option<BusinessUseCaseUsage>,
    adAccountUsage: Option<Object>,
    appUsage: Option<Object>)

  /** The fields of a record that remain once "type" and the regain estimate are popped. */
  function Metrics(rec: UsageRecord): (m: Object)
    ensures RegainField !in m
    ensures forall f :: f in m <==> f in rec.fields && f != RegainField
    ensures forall f :: f in m ==> m[f] == rec.fields[f]
  {
    rec.fields - {RegainField}
  }

  /** Every non-empty finite set of integers has a largest element. */
  lemma {:induction false} SetMaxExists(s: set<int>)
    requires exists x :: x in s
    ensures exists x :: x in s && forall v :: v in s ==> v <= x
    decreases |s|
  {
    var y :| y in s;
    var rest := s - {y};
    if exists v :: v in rest {
      SetMaxExists(rest);
      var x :| x in rest && forall v :: v in rest ==> v <= x;
      var z := if x < y then y else x;
      forall v | v in s ensures v <= z {
        if v != y { assert v in rest; }
      }
      assert z in s;
    } else {
      assert y in s && forall v :: v in s ==> v <= y;
    }
  }

  /** A non-empty object has at least one value. */
  lemma ValuesNonEmpty(m: Object)
    requires m != map[]
    ensures exists v :: v in m.Values
  {
    var k :| k in m;
    var v := m[k];
    assert v in m.Values;
  }

  /** `max(d.values())` of a non-empty JSON object: a value of the object that no other value exceeds. */
  function MaxValue(m: Object): (r: int)
    requires m != map[]
    ensures r in m.Values
    ensures forall k :: k in m ==> m[k] <= r
  {
    ValuesNonEmpty(m);
    SetMaxExists(m.Values);
    var x :| x in m.Values && forall v :: v in m.Values ==> v <= x;
    assert forall k :: k in m ==> m[k] in m.Values;
    x
  }
}
