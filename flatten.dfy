/**
 * The flattener: `build_values_map_for_ticker`, which turns one ticker's
 * document into a map from column name to raw value. Each column's value is
 * specified on its own by `ColumnValue`; the method builds the map in the
 * source's order and is proved to agree with it.
 */
module Flatten {
  import opened Wrappers
  import opened JsonValue
  import opened Traverse
  import opened Metrics
  import opened Schema
  import opened Cells

  predicate HasPrefix(c: string, p: string) {
    |p| <= |c| && c[..|p|] == p
  }

  // ---------------------------------------------------------------------------
  // The value of each column

  /** `j.get("asset") or get_nested(j, ["data", "asset"], default={})`. */
  function AssetOf(j: Json): (asset: Json)
    ensures !j.JObj? ==> asset == JObj([])
  {
    var top := GetOr(j, "asset", JNull);
    if Truthy(top) then top else NestedGet(j, ["data", "asset"], JObj([]))
  }

  /**
   * Where the metric trends are read from: a truthy top-level `metric_trends`,
   * else `data.metric_trends`, and when that is None or missing, the first
   * `metric_trends` binding found by the depth-first search.
   */
  function MetricTrendsSource(j: Json): (mt: Json)
    ensures Truthy(GetOr(j, "metric_trends", JNull)) ==> mt == GetOr(j, "metric_trends", JNull)
  {
    var top := GetOr(j, "metric_trends", JNull);
    var mt := if Truthy(top) then top else NestedGet(j, ["data", "metric_trends"], JNull);
    if mt == JNull then FindFirstKey(j, "metric_trends") else mt
  }

  /** `get_nested(j, ["data", "change_intervals"], default={})`. */
  function ChangeIntervals(j: Json): Json {
    NestedGet(j, ["data", "change_intervals"], JObj([]))
  }

  /**
   * The value of `metric_trends_<k>`: the picked scalar of the metric when the
   * metric trends are an object; otherwise the raw value of the same key in
   * `data.change_intervals`, or None.
   */
  function MetricTrendValue(j: Json, k: string): (v: Json)
    ensures MetricTrendsSource(j).JObj? ==> v == JNull || IsScalar(v)
  {
    var mt := MetricTrendsSource(j);
    if mt.JObj? then PickScalar(GetOr(mt, k, JNull))
    else
      var ci := ChangeIntervals(j);
      if ci.JObj? then GetOr(ci, k, JNull) else JNull
  }

  /** The value of `change_intervals_<k>`: the raw value in `data.change_intervals`, or None. */
  function ChangeIntervalValue(j: Json, k: string): (v: Json)
    ensures k !in GatherChangeIntervalKeys(j) ==> v == JNull
  {
    var ci := ChangeIntervals(j);
    if ci.JObj? then GetOr(ci, k, JNull) else JNull
  }

  /** The value of `sentiment_types_<k>`: the sub-object, `{}` when it or its parent is missing. */
  function SentimentTypeValue(j: Json, k: string): Json {
    var st := NestedGet(j, ["data", "sentiment_types"], JObj([]));
    if st.JObj? then GetOr(st, k, JObj([])) else JObj([])
  }

  /** `ai_summary.get("supportive")` when the summary is an object, else `[]`. */
  function AiSupportive(j: Json): Json {
    var ai := NestedGet(j, ["data", "ai_summary"], JObj([]));
    if ai.JObj? then GetOr(ai, "supportive", JNull) else JArr([])
  }

  /** The value the builder stores under column `c` for document `j`. */
  function ColumnValue(j: Json, c: string): Json {
    if HasPrefix(c, ASSET_PREFIX) then NestedGet(AssetOf(j), [c[|ASSET_PREFIX|..]], JNull)
    else if HasPrefix(c, METRIC_PREFIX) then MetricTrendValue(j, c[|METRIC_PREFIX|..])
    else if HasPrefix(c, CHANGE_INTERVAL_PREFIX) then ChangeIntervalValue(j, c[|CHANGE_INTERVAL_PREFIX|..])
    else if HasPrefix(c, SENTIMENT_TYPE_PREFIX) then SentimentTypeValue(j, c[|SENTIMENT_TYPE_PREFIX|..])
    else if c == "ai_summary" || c in TYPES_COLUMNS then NestedGet(j, ["data", c], JObj([]))
    else if c == "alerts" then NestedGet(j, ["data", c], JArr([]))
    else if c == "ai_summary_supportive" then AiSupportive(j)
    else NestedGet(j, ["data", c], JNull)
  }

  /** The columns the builder fills for the discovered keys `keys`. */
  predicate IsValueColumn(c: string, keys: seq<string>) {
    c in FlatColumns() || c in MetricColumns() || c in ChangeIntervalColumns(keys)
  }

  // ---------------------------------------------------------------------------
  // Column families

  lemma PrefixSplit(p: string, s: string)
    ensures HasPrefix(p + s, p) && (p + s)[|p|..] == s
  {
    assert (p + s)[..|p|] == p;
  }

  /** A name whose first two characters differ from those of `p` does not start with `p`. */
  lemma NotPrefix(c: string, p: string)
    requires |p| >= 2 && |c| >= 2 && (c[0] != p[0] || c[1] != p[1])
    ensures !HasPrefix(c, p)
  {
    assert |p| <= |c| ==> c[..|p|][0] == c[0] && c[..|p|][1] == c[1];
  }

  /** `c` starts with none of the four family prefixes. */
  predicate NoFamilyPrefix(c: string) {
    && !HasPrefix(c, ASSET_PREFIX) && !HasPrefix(c, METRIC_PREFIX)
    && !HasPrefix(c, CHANGE_INTERVAL_PREFIX) && !HasPrefix(c, SENTIMENT_TYPE_PREFIX)
  }

  /**
   * A column the builder reads from `data` with the None default: it starts
   * with no family prefix and is none of the columns with a default of their own.
   */
  predicate CounterColumn(c: string) {
    NoFamilyPrefix(c) && c !in TYPES_COLUMNS && c !in ["alerts", "ai_summary", "ai_summary_supportive"]
  }

  /**
   * A test on first characters that is enough for `NoFamilyPrefix`: the four
   * prefixes begin with "as", "m", "ch" and "sentiment_t", so a name of two
   * or more characters that begins otherwise starts with none of them.
   */
  predicate PlainShape(c: string) {
    && |c| >= 2 && c[0] != 'm'
    && !(c[0] == 'a' && c[1] == 's')
    && !(c[0] == 'c' && c[1] == 'h')
    && (c[0] == 's' ==> |c| > 10 && c[10] != 't')
  }

  lemma PlainShapeHasNoFamilyPrefix(c: string)
    requires PlainShape(c)
    ensures NoFamilyPrefix(c)
  {
    NotPrefix(c, ASSET_PREFIX);
    NotPrefix(c, METRIC_PREFIX);
    NotPrefix(c, CHANGE_INTERVAL_PREFIX);
    assert |SENTIMENT_TYPE_PREFIX| <= |c| ==> c[..|SENTIMENT_TYPE_PREFIX|][0] == c[0] && c[..|SENTIMENT_TYPE_PREFIX|][10] == c[10];
  }

  /** No fixed-name column the builder fills starts with a family prefix. */
  lemma LiteralColumnsHaveNoFamilyPrefix()
    ensures forall i :: 0 <= i < |DATA_COUNT_KEYS| ==> CounterColumn(DATA_COUNT_KEYS[i])
    ensures forall i :: 0 <= i < |TYPES_COLUMNS| ==> NoFamilyPrefix(TYPES_COLUMNS[i])
    ensures forall i :: 0 <= i < |TRAILING_DATA_KEYS| ==> CounterColumn(TRAILING_DATA_KEYS[i])
    ensures NoFamilyPrefix("alerts") && NoFamilyPrefix("ai_summary") && NoFamilyPrefix("ai_summary_supportive")
  {
    forall i | 0 <= i < |DATA_COUNT_KEYS| ensures CounterColumn(DATA_COUNT_KEYS[i]) {
      var c := DATA_COUNT_KEYS[i];
      assert PlainShape(c) && c[0] != 't' && c[0] != 'a';
      PlainShapeHasNoFamilyPrefix(c);
    }
    forall i | 0 <= i < |TYPES_COLUMNS| ensures NoFamilyPrefix(TYPES_COLUMNS[i]) {
      PlainShapeHasNoFamilyPrefix(TYPES_COLUMNS[i]);
    }
    forall i | 0 <= i < |TRAILING_DATA_KEYS| ensures CounterColumn(TRAILING_DATA_KEYS[i]) {
      var c := TRAILING_DATA_KEYS[i];
      assert PlainShape(c) && c[0] != 't' && c[0] != 'a';
      PlainShapeHasNoFamilyPrefix(c);
    }
    PlainShapeHasNoFamilyPrefix("alerts");
    PlainShapeHasNoFamilyPrefix("ai_summary");
    PlainShapeHasNoFamilyPrefix("ai_summary_supportive");
  }

  lemma AssetColumnValue(j: Json, f: string)
    ensures ColumnValue(j, ASSET_PREFIX + f) == NestedGet(AssetOf(j), [f], JNull)
  {
    PrefixSplit(ASSET_PREFIX, f);
  }

  lemma MetricColumnValue(j: Json, k: string)
    ensures ColumnValue(j, MetricColumn(k)) == MetricTrendValue(j, k)
  {
    PrefixSplit(METRIC_PREFIX, k);
    NotPrefix(MetricColumn(k), ASSET_PREFIX);
  }

  lemma ChangeIntervalColumnValue(j: Json, k: string)
    ensures ColumnValue(j, ChangeIntervalColumn(k)) == ChangeIntervalValue(j, k)
  {
    PrefixSplit(CHANGE_INTERVAL_PREFIX, k);
    NotPrefix(ChangeIntervalColumn(k), ASSET_PREFIX);
    NotPrefix(ChangeIntervalColumn(k), METRIC_PREFIX);
  }

  lemma SentimentTypeColumnValue(j: Json, k: string)
    ensures ColumnValue(j, SENTIMENT_TYPE_PREFIX + k) == SentimentTypeValue(j, k)
  {
    var c := SENTIMENT_TYPE_PREFIX + k;
    PrefixSplit(SENTIMENT_TYPE_PREFIX, k);
    NotPrefix(c, ASSET_PREFIX);
    NotPrefix(c, METRIC_PREFIX);
    NotPrefix(c, CHANGE_INTERVAL_PREFIX);
  }

  // ---------------------------------------------------------------------------
  // The builder

  /** `m` holds exactly the columns of `done`, each with its specified value. */
  ghost predicate Agrees(m: ValuesMap, done: seq<string>, j: Json) {
    && (forall c :: c in m <==> c in done)
    && (forall c :: c in m ==> m[c] == ColumnValue(j, c))
  }

  lemma AgreesExtend(m: ValuesMap, done: seq<string>, j: Json, c: string, v: Json)
    requires Agrees(m, done, j) && v == ColumnValue(j, c)
    ensures Agrees(m[c := v], done + [c], j)
  {
  }

  /** The loop over the `data` counters (v1.py:356-363), the `None` default. */
  method FillDataCounters(j: Json, m0: ValuesMap, ghost done0: seq<string>, keys: seq<string>) returns (m: ValuesMap)
    requires forall i :: 0 <= i < |keys| ==> CounterColumn(keys[i])
    requires Agrees(m0, done0, j)
    ensures Agrees(m, done0 + keys, j)
  {
    m := m0;
    for i := 0 to |keys|
      invariant Agrees(m, done0 + keys[..i], j)
    {
      var key := keys[i];
      assert CounterColumn(key);
      var v := GetNested(j, ["data", key], JNull);
      AgreesExtend(m, done0 + keys[..i], j, key, v);
      assert done0 + keys[..i] + [key] == done0 + keys[..i + 1];
      m := m[key := v];
    }
    assert keys[..|keys|] == keys;
  }

  /** `alerts`, `ai_summary` and `ai_summary_supportive` (v1.py:366-368). */
  method FillSummaries(j: Json, m0: ValuesMap, ghost done0: seq<string>) returns (m: ValuesMap)
    requires Agrees(m0, done0, j)
    ensures Agrees(m, done0 + ["alerts", "ai_summary", "ai_summary_supportive"], j)
  {
    LiteralColumnsHaveNoFamilyPrefix();
    var alerts := GetNested(j, ["data", "alerts"], JArr([]));
    AgreesExtend(m0, done0, j, "alerts", alerts);
    m := m0["alerts" := alerts];
    var ai := GetNested(j, ["data", "ai_summary"], JObj([]));
    AgreesExtend(m, done0 + ["alerts"], j, "ai_summary", ai);
    m := m["ai_summary" := ai];
    var supportive := if ai.JObj? then GetOr(ai, "supportive", JNull) else JArr([]);
    AgreesExtend(m, done0 + ["alerts", "ai_summary"], j, "ai_summary_supportive", supportive);
    m := m["ai_summary_supportive" := supportive];
    assert done0 + ["alerts", "ai_summary"] + ["ai_summary_supportive"] == done0 + ["alerts", "ai_summary", "ai_summary_supportive"];
  }

  /** `types_count`, `types_eng` and `types_sentiment` (v1.py:371-373), the `{}` default. */
  method FillTypes(j: Json, m0: ValuesMap, ghost done0: seq<string>) returns (m: ValuesMap)
    requires Agrees(m0, done0, j)
    ensures Agrees(m, done0 + TYPES_COLUMNS, j)
  {
    LiteralColumnsHaveNoFamilyPrefix();
    m := m0;
    for i := 0 to |TYPES_COLUMNS|
      invariant Agrees(m, done0 + TYPES_COLUMNS[..i], j)
    {
      var key := TYPES_COLUMNS[i];
      var v := GetNested(j, ["data", key], JObj([]));
      AgreesExtend(m, done0 + TYPES_COLUMNS[..i], j, key, v);
      assert done0 + TYPES_COLUMNS[..i] + [key] == done0 + TYPES_COLUMNS[..i + 1];
      m := m[key := v];
    }
    assert TYPES_COLUMNS[..|TYPES_COLUMNS|] == TYPES_COLUMNS;
  }

  /** The four `sentiment_types_*` columns (v1.py:376-386). */
  method FillSentimentTypes(j: Json, m0: ValuesMap, ghost done0: seq<string>) returns (m: ValuesMap)
    requires Agrees(m0, done0, j)
    ensures Agrees(m, done0 + SentimentTypeColumns(), j)
  {
    var st := GetNested(j, ["data", "sentiment_types"], JObj([]));
    m := m0;
    for i := 0 to |SENTIMENT_TYPE_KEYS|
      invariant Agrees(m, done0 + SentimentTypeColumns()[..i], j)
    {
      var k := SENTIMENT_TYPE_KEYS[i];
      SentimentTypeColumnValue(j, k);
      var v := if st.JObj? then GetOr(st, k, JObj([])) else JObj([]);
      AgreesExtend(m, done0 + SentimentTypeColumns()[..i], j, SENTIMENT_TYPE_PREFIX + k, v);
      assert done0 + SentimentTypeColumns()[..i] + [SENTIMENT_TYPE_PREFIX + k] == done0 + SentimentTypeColumns()[..i + 1];
      m := m[SENTIMENT_TYPE_PREFIX + k := v];
    }
    assert SentimentTypeColumns()[..|SENTIMENT_TYPE_KEYS|] == SentimentTypeColumns();
  }

  /**
   * The lookup of the asset object (v1.py:389-391), through the loop of
   * `get_nested`. Its result is `AssetOf`; what that value is in each case of
   * the `or` is stated by `FalsyTopLevelAssetIsSkipped` and by the
   * non-object clause of `AssetOf`.
   */
  method LocateAsset(j: Json) returns (asset: Json)
    ensures asset == AssetOf(j)
  {
    asset := GetOr(j, "asset", JNull);
    if !Truthy(asset) {
      asset := GetNested(j, ["data", "asset"], JObj([]));
    }
  }

  /** The `asset_*` columns (v1.py:389-417), read from the asset object. */
  method FillAsset(j: Json, m0: ValuesMap, ghost done0: seq<string>) returns (m: ValuesMap)
    requires Agrees(m0, done0, j)
    ensures Agrees(m, done0 + AssetColumns(), j)
  {
    var asset := LocateAsset(j);
    ghost var cols := AssetColumns();
    m := m0;
    for i := 0 to |ASSET_FIELDS|
      invariant Agrees(m, done0 + cols[..i], j)
    {
      var f := ASSET_FIELDS[i];
      AssetColumnValue(j, f);
      var v := GetNested(asset, [f], JNull);
      AgreesExtend(m, done0 + cols[..i], j, ASSET_PREFIX + f, v);
      assert done0 + cols[..i] + [ASSET_PREFIX + f] == done0 + cols[..i + 1];
      m := m[ASSET_PREFIX + f := v];
    }
    assert cols[..|ASSET_FIELDS|] == cols;
  }

  /**
   * The lookup of the metric trends (v1.py:425-427), through the loop of
   * `get_nested`. Its result is `MetricTrendsSource`; the fall-throughs past
   * a falsy top-level value are stated by `FalsyTopLevelMetricTrendsIsSkipped`,
   * `EmptyTopLevelMetricTrendsGivesNone` and
   * `NoMetricTrendsFallsBackToChangeIntervals`.
   */
  method LocateMetricTrends(j: Json) returns (mt: Json)
    ensures mt == MetricTrendsSource(j)
  {
    mt := GetOr(j, "metric_trends", JNull);
    if !Truthy(mt) {
      mt := GetNested(j, ["data", "metric_trends"], JNull);
    }
    if mt == JNull {
      mt := FindFirstKey(j, "metric_trends");
    }
  }

  /** One step of the metric-trend loop keeps the built map in agreement with the document. */
  lemma MetricStep(j: Json, m: ValuesMap, done0: seq<string>, i: nat, v: Json)
    requires i < |METRIC_TRENDS_KEYS|
    requires Agrees(m, done0 + MetricColumns()[..i], j)
    requires v == MetricTrendValue(j, METRIC_TRENDS_KEYS[i])
    ensures Agrees(m[MetricColumn(METRIC_TRENDS_KEYS[i]) := v], done0 + MetricColumns()[..i + 1], j)
  {
    var c := MetricColumn(METRIC_TRENDS_KEYS[i]);
    MetricColumnValue(j, METRIC_TRENDS_KEYS[i]);
    AgreesExtend(m, done0 + MetricColumns()[..i], j, c, v);
    assert MetricColumns()[..i + 1] == MetricColumns()[..i] + [c];
    assert done0 + MetricColumns()[..i] + [c] == done0 + MetricColumns()[..i + 1];
  }

  /** The metric-trend value, once its source and the change intervals are known. */
  lemma MetricTrendValueFrom(j: Json, k: string, mt: Json, ci: Json)
    requires mt == MetricTrendsSource(j) && ci == ChangeIntervals(j)
    ensures MetricTrendValue(j, k)
      == if mt.JObj? then PickScalar(GetOr(mt, k, JNull)) else if ci.JObj? then GetOr(ci, k, JNull) else JNull
  {
  }

  /**
   * The `metric_trends_*` columns (v1.py:425-439): picked scalars when the
   * metric trends are an object, else the raw change-interval values, else None.
   */
  method FillMetricTrends(j: Json, m0: ValuesMap, ghost done0: seq<string>) returns (m: ValuesMap)
    requires Agrees(m0, done0, j)
    ensures Agrees(m, done0 + MetricColumns(), j)
  {
    var mt := LocateMetricTrends(j);
    var ci := GetNested(j, ["data", "change_intervals"], JObj([]));
    ghost var cols := MetricColumns();
    m := m0;
    for i := 0 to |METRIC_TRENDS_KEYS|
      invariant Agrees(m, done0 + cols[..i], j)
    {
      var k := METRIC_TRENDS_KEYS[i];
      var v: Json;
      if mt.JObj? {
        v := PickScalar(GetOr(mt, k, JNull));
      } else if ci.JObj? {
        v := GetOr(ci, k, JNull);
      } else {
        v := JNull;
      }
      MetricTrendValueFrom(j, k, mt, ci);
      MetricStep(j, m, done0, i, v);
      m := m[MetricColumn(k) := v];
    }
    assert cols[..|METRIC_TRENDS_KEYS|] == cols;
  }

  /** The `change_intervals_*` columns of the discovered keys (v1.py:442-447). */
  method FillChangeIntervals(j: Json, keys: seq<string>, m0: ValuesMap, ghost done0: seq<string>) returns (m: ValuesMap)
    requires Agrees(m0, done0, j)
    ensures Agrees(m, done0 + ChangeIntervalColumns(keys), j)
  {
    var ci := GetNested(j, ["data", "change_intervals"], JObj([]));
    m := m0;
    for i := 0 to |keys|
      invariant Agrees(m, done0 + ChangeIntervalColumns(keys)[..i], j)
    {
      var ck := keys[i];
      ChangeIntervalColumnValue(j, ck);
      var v := if ci.JObj? then GetOr(ci, ck, JNull) else JNull;
      AgreesExtend(m, done0 + ChangeIntervalColumns(keys)[..i], j, ChangeIntervalColumn(ck), v);
      assert done0 + ChangeIntervalColumns(keys)[..i] + [ChangeIntervalColumn(ck)] == done0 + ChangeIntervalColumns(keys)[..i + 1];
      m := m[ChangeIntervalColumn(ck) := v];
    }
    assert ChangeIntervalColumns(keys)[..|keys|] == ChangeIntervalColumns(keys);
  }

  /**
   * `build_values_map_for_ticker(j, keys)`. A document that is not an object
   * makes the builder raise (`j.get` on a non-dict), which the caller turns
   * into an empty map: that outcome is None here.
   */
  method BuildValuesMap(j: Json, keys: seq<string>) returns (r: Option<ValuesMap>)
    ensures r.Some? <==> j.JObj?
    ensures r.Some? ==> forall c :: c in r.value <==> IsValueColumn(c, keys)
    ensures r.Some? ==> forall c :: c in r.value ==> r.value[c] == ColumnValue(j, c)
  {
    if !j.JObj? {
      return None;
    }
    LiteralColumnsHaveNoFamilyPrefix();
    var m := FillDataCounters(j, map[], [], DATA_COUNT_KEYS);
    m := FillSummaries(j, m, DATA_COUNT_KEYS);
    ghost var done := DATA_COUNT_KEYS + ["alerts", "ai_summary", "ai_summary_supportive"];
    m := FillTypes(j, m, done);
    done := done + TYPES_COLUMNS;
    m := FillSentimentTypes(j, m, done);
    done := done + SentimentTypeColumns();
    m := FillAsset(j, m, done);
    done := done + AssetColumns();
    m := FillDataCounters(j, m, done, TRAILING_DATA_KEYS);
    done := done + TRAILING_DATA_KEYS;
    assert done == FlatColumns();
    m := FillMetricTrends(j, m, done);
    done := done + MetricColumns();
    m := FillChangeIntervals(j, keys, m, done);
    done := done + ChangeIntervalColumns(keys);
    r := Some(m);
  }

  // ---------------------------------------------------------------------------
  // Properties of the flattened values

  /** A key bound at the top level of an object occurs in it. */
  lemma OccursAtTop(fields: seq<(string, Json)>, key: string)
    requires Lookup(fields, key).Some?
    ensures Occurs(JObj(fields), key, Lookup(fields, key).value)
  {
  }

  /** A key bound in a top-level member of an object occurs in the object. */
  lemma OccursInMember(fields: seq<(string, Json)>, member: string, key: string, v: Json)
    requires Lookup(fields, member).Some?
    requires Occurs(Lookup(fields, member).value, key, v)
    ensures Occurs(JObj(fields), key, v)
  {
    var i :| 0 <= i < |fields| && fields[i] == (member, Lookup(fields, member).value);
    assert Child(JObj(fields), i) == fields[i].1;
  }

  /**
   * With no `metric_trends` binding anywhere in the document, every metric
   * column falls back to the raw value of the same key in `data.change_intervals`.
   */
  lemma NoMetricTrendsFallsBackToChangeIntervals(j: Json, k: string)
    requires j.JObj?
    requires forall v :: !Occurs(j, "metric_trends", v)
    ensures MetricTrendValue(j, k) == ChangeIntervalValue(j, k)
  {
    var key := "metric_trends";
    if Lookup(j.fields, key).Some? {
      OccursAtTop(j.fields, key);
    }
    assert GetOr(j, key, JNull) == JNull;
    var data := Lookup(j.fields, "data");
    if data.Some? && data.value.JObj? && Lookup(data.value.fields, key).Some? {
      OccursAtTop(data.value.fields, key);
      OccursInMember(j.fields, "data", key, Lookup(data.value.fields, key).value);
    }
    assert NestedGet(j, ["data", key], JNull) == JNull;
    FindFirstKeySound(j, key);
    assert MetricTrendsSource(j) == JNull;
  }

  /**
   * The falsy `or` of the asset lookup: a top-level `asset` that is None,
   * empty or otherwise falsy does not hide `data.asset`.
   */
  lemma FalsyTopLevelAssetIsSkipped(j: Json)
    ensures !Truthy(GetOr(j, "asset", JNull)) ==> AssetOf(j) == NestedGet(j, ["data", "asset"], JObj([]))
  {
  }

  /**
   * The falsy `or` of the metric-trend lookup: a falsy top-level
   * `metric_trends` gives way to `data.metric_trends`, and when that is None
   * or missing too, to the depth-first search.
   */
  lemma FalsyTopLevelMetricTrendsIsSkipped(j: Json)
    ensures var nested := NestedGet(j, ["data", "metric_trends"], JNull);
      && (!Truthy(GetOr(j, "metric_trends", JNull)) && nested != JNull ==> MetricTrendsSource(j) == nested)
      && (!Truthy(GetOr(j, "metric_trends", JNull)) && nested == JNull ==>
            MetricTrendsSource(j) == FindFirstKey(j, "metric_trends"))
  {
  }

  /**
   * An empty top-level `metric_trends` with none under `data` is found again
   * by the recursive search, which prefers the document's own binding, so
   * every metric column is None and the change-interval fallback is not taken.
   */
  lemma EmptyTopLevelMetricTrendsGivesNone(j: Json, k: string)
    ensures (&& j.JObj? && Lookup(j.fields, "metric_trends") == Some(JObj([]))
             && NestedGet(j, ["data", "metric_trends"], JNull) == JNull)
            ==> MetricTrendValue(j, k) == JNull
  {
    if j.JObj? && Lookup(j.fields, "metric_trends") == Some(JObj([])) {
      FindFirstKeyPrefersOwn(j.fields, "metric_trends", JObj([]));
    }
  }
}
