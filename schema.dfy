/**
 * The header row and its growth: the fixed columns, the metric-trend and
 * change-interval column names, `append_new_headers`, the accumulation of
 * discovered change-interval keys, and the per-ticker header growth of the
 * main run.
 */
module Schema {
  import opened JsonValue
  import opened Traverse
  import opened Metrics
  import opened Sequences

  /** The counters read from `data` by the first loop of the builder. */
  const DATA_COUNT_KEYS: seq<string> := [
    "sentiment_positive_posts", "sentiment_positive_interactions",
    "sentiment_neutral_posts", "sentiment_neutral_interactions",
    "sentiment_negative_posts", "sentiment_negative_interactions",
    "posts_active", "posts_active_prev", "posts_created", "posts_created_prev",
    "contributors_active", "contributors_active_prev", "contributors_created", "contributors_created_prev"
  ]

  /** The `data` sub-objects copied under their own name, defaulting to `{}`. */
  const TYPES_COLUMNS: seq<string> := ["types_count", "types_eng", "types_sentiment"]

  /** The sub-keys of `data.sentiment_types` that get a column each. */
  const SENTIMENT_TYPE_KEYS: seq<string> := ["tweet", "youtube-video", "tiktok-video", "reddit-post"]

  /** The fields of the asset object that get an `asset_` column each. */
  const ASSET_FIELDS: seq<string> := [
    "id", "name", "symbol", "price", "price_btc", "market_cap", "market_dominance",
    "percent_change_1h", "percent_change_24h", "percent_change_7d", "percent_change_30d",
    "volume_24h", "max_supply", "circulating_supply", "categories", "close", "interactions_24h",
    "galaxy_score", "alt_rank", "volatility", "market_cap_rank", "social_dominance",
    "price_all_time_high", "price_all_time_high_date", "price_52_week_high",
    "price_52_week_high_date", "price_52_week_low", "price_52_week_low_date"
  ]

  /** The `data` counters read after the asset fields. */
  const TRAILING_DATA_KEYS: seq<string> := ["interactions_24h", "interactions_24h_prev", "whatsup"]

  const ASSET_PREFIX: string := "asset_"
  const SENTIMENT_TYPE_PREFIX: string := "sentiment_types_"

  function SentimentTypeColumns(): (cs: seq<string>)
    ensures |cs| == |SENTIMENT_TYPE_KEYS|
    ensures forall i :: 0 <= i < |cs| ==> cs[i] == SENTIMENT_TYPE_PREFIX + SENTIMENT_TYPE_KEYS[i]
  {
    seq(|SENTIMENT_TYPE_KEYS|, i requires 0 <= i < |SENTIMENT_TYPE_KEYS| => SENTIMENT_TYPE_PREFIX + SENTIMENT_TYPE_KEYS[i])
  }

  function AssetColumns(): (cs: seq<string>)
    ensures |cs| == |ASSET_FIELDS|
    ensures forall i :: 0 <= i < |cs| ==> cs[i] == ASSET_PREFIX + ASSET_FIELDS[i]
  {
    seq(|ASSET_FIELDS|, i requires 0 <= i < |ASSET_FIELDS| => ASSET_PREFIX + ASSET_FIELDS[i])
  }

  /** The columns the builder fills from fixed paths, in the order it fills them. */
  function FlatColumns(): seq<string> {
    DATA_COUNT_KEYS + ["alerts", "ai_summary", "ai_summary_supportive"] + TYPES_COLUMNS
    + SentimentTypeColumns() + AssetColumns() + TRAILING_DATA_KEYS
  }

  /**
   * `REQUIRED_FIXED_HEADERS`, in sheet order: the ticker, then the columns the
   * flattener fills from fixed paths, in the order it fills them (the source
   * spells this list out twice, once as the header list and once as the
   * builder's assignments, and the two agree).
   */
  const REQUIRED_FIXED_HEADERS: seq<string> := ["ticker"] + FlatColumns()

  /** The catch-all column for the serialised document. */
  const RAW_JSON: string := "raw_json"

  const METRIC_PREFIX: string := "metric_trends_"
  const CHANGE_INTERVAL_PREFIX: string := "change_intervals_"

  function MetricColumn(k: string): string {
    METRIC_PREFIX + k
  }

  function ChangeIntervalColumn(k: string): string {
    CHANGE_INTERVAL_PREFIX + k
  }

  /** `[f"metric_trends_{k}" for k in METRIC_TRENDS_KEYS]`. */
  function MetricColumns(): (cs: seq<string>)
    ensures |cs| == |METRIC_TRENDS_KEYS|
    ensures forall i :: 0 <= i < |cs| ==> cs[i] == MetricColumn(METRIC_TRENDS_KEYS[i])
  {
    seq(|METRIC_TRENDS_KEYS|, i requires 0 <= i < |METRIC_TRENDS_KEYS| => MetricColumn(METRIC_TRENDS_KEYS[i]))
  }

  /** `[f"change_intervals_{k}" for k in keys]`. */
  function ChangeIntervalColumns(keys: seq<string>): (cs: seq<string>)
    ensures |cs| == |keys|
    ensures forall i :: 0 <= i < |cs| ==> cs[i] == ChangeIntervalColumn(keys[i])
  {
    seq(|keys|, i requires 0 <= i < |keys| => ChangeIntervalColumn(keys[i]))
  }

  predicate NoDup(s: seq<string>) {
    forall i, j :: 0 <= i < j < |s| ==> s[i] != s[j]
  }

  /**
   * `[h for h in candidates if h not in current]`: the candidates the header
   * lacks, in the order supplied, repeats included.
   */
  function Missing(current: seq<string>, candidates: seq<string>): (r: seq<string>)
    ensures |r| <= |candidates|
    ensures forall h :: h in r <==> h in candidates && h !in current
    ensures IsSubseq(r, candidates)
    ensures forall h :: multiset(r)[h] == if h in current then 0 else multiset(candidates)[h]
  {
    if candidates == [] then []
    else
      var rest := Missing(current, candidates[1..]);
      assert candidates == [candidates[0]] + candidates[1..];
      assert multiset(candidates) == multiset{candidates[0]} + multiset(candidates[1..]);
      if candidates[0] in current then
        SkipHead(candidates[0], rest, candidates[1..]);
        rest
      else
        KeepHead(candidates[0], rest, candidates[1..]);
        [candidates[0]] + rest
  }

  /**
   * The missing candidates of a concatenation are those of its first part
   * followed by those of its second: the order of supply is kept.
   */
  lemma {:induction false} MissingConcat(current: seq<string>, a: seq<string>, b: seq<string>)
    ensures Missing(current, a + b) == Missing(current, a) + Missing(current, b)
  {
    if a != [] {
      assert (a + b)[1..] == a[1..] + b;
      MissingConcat(current, a[1..], b);
    } else {
      assert a + b == b;
    }
  }

  lemma {:induction false} MissingNoDup(current: seq<string>, candidates: seq<string>)
    requires NoDup(candidates)
    ensures NoDup(Missing(current, candidates))
  {
    if candidates != [] {
      var rest := candidates[1..];
      assert NoDup(rest) by {
        forall i, j | 0 <= i < j < |rest| ensures rest[i] != rest[j] {
          assert rest[i] == candidates[i + 1] && rest[j] == candidates[j + 1];
        }
      }
      MissingNoDup(current, rest);
      assert candidates[0] !in rest;
    }
  }

  /**
   * The header `append_new_headers` leaves behind: the current header followed
   * by the candidates it lacks, in the order given. The same step grows the
   * list of discovered change-interval keys.
   */
  function AppendMissing(current: seq<string>, candidates: seq<string>): (r: seq<string>)
    ensures |current| <= |r| && r[..|current|] == current
    ensures forall h :: h in r <==> h in current || h in candidates
    ensures IsSubseq(r[|current|..], candidates)
    ensures forall h :: multiset(r[|current|..])[h] == if h in current then 0 else multiset(candidates)[h]
    ensures Missing(current, candidates) == [] ==> r == current
  {
    var r := current + Missing(current, candidates);
    assert r[|current|..] == Missing(current, candidates);
    r
  }

  /** Nothing is missing exactly when every candidate is already present. */
  lemma MissingEmptyIff(current: seq<string>, candidates: seq<string>)
    ensures Missing(current, candidates) == [] <==> forall h :: h in candidates ==> h in current
  {
    var m := Missing(current, candidates);
    if m != [] {
      assert m[0] in m;
    }
  }

  /**
   * A second call with the same candidates finds nothing missing, so it
   * neither changes the header nor writes it.
   */
  lemma AppendMissingIdempotent(current: seq<string>, candidates: seq<string>)
    ensures Missing(AppendMissing(current, candidates), candidates) == []
    ensures AppendMissing(AppendMissing(current, candidates), candidates) == AppendMissing(current, candidates)
  {
    MissingEmptyIff(AppendMissing(current, candidates), candidates);
  }

  /** A header without duplicates keeps none when grown by distinct candidates. */
  lemma AppendMissingNoDup(current: seq<string>, candidates: seq<string>)
    requires NoDup(current) && NoDup(candidates)
    ensures NoDup(AppendMissing(current, candidates))
  {
    var m := Missing(current, candidates);
    MissingNoDup(current, candidates);
    var r := current + m;
    forall i, j | 0 <= i < j < |r| ensures r[i] != r[j] {
      if j >= |current| {
        assert r[j] == m[j - |current|] && r[j] in m;
        if i >= |current| {
          assert r[i] == m[i - |current|];
        } else {
          assert r[i] in current;
        }
      }
    }
  }

  /**
   * The header written when the sheet has none: the fixed columns, one column
   * per metric trend, and `raw_json`.
   */
  function InitialHeaders(): (h: seq<string>)
    ensures |h| == |REQUIRED_FIXED_HEADERS| + |METRIC_TRENDS_KEYS| + 1
    ensures h[..|REQUIRED_FIXED_HEADERS|] == REQUIRED_FIXED_HEADERS
    ensures forall i :: 0 <= i < |METRIC_TRENDS_KEYS| ==> h[|REQUIRED_FIXED_HEADERS| + i] == MetricColumn(METRIC_TRENDS_KEYS[i])
    ensures forall k :: k in METRIC_TRENDS_KEYS ==> MetricColumn(k) in h
    ensures h[|h| - 1] == RAW_JSON
  {
    var h := REQUIRED_FIXED_HEADERS + MetricColumns() + [RAW_JSON];
    assert forall i :: 0 <= i < |METRIC_TRENDS_KEYS| ==> h[|REQUIRED_FIXED_HEADERS| + i] == MetricColumn(METRIC_TRENDS_KEYS[i]);
    h
  }

  /**
   * `gather_change_interval_keys_from_json`: the keys of `data.change_intervals`
   * in iteration order, or none when that is not an object.
   */
  function GatherChangeIntervalKeys(j: Json): (keys: seq<string>)
    ensures var ci := NestedGet(j, ["data", "change_intervals"], JObj([]));
      && (ci.JObj? ==> keys == Keys(ci.fields))
      && (ci.JObj? ==> forall k :: k in keys <==> HasKey(ci.fields, k))
      && (!ci.JObj? ==> keys == [])
  {
    var ci := NestedGet(j, ["data", "change_intervals"], JObj([]));
    if ci.JObj? then
      var ks := Keys(ci.fields);
      assert forall k :: k in ks <==> HasKey(ci.fields, k) by {
        forall k ensures k in ks <==> HasKey(ci.fields, k) {
          if HasKey(ci.fields, k) {
            var i :| 0 <= i < |ci.fields| && ci.fields[i].0 == k;
            assert ks[i] == k;
          }
        }
      }
      ks
    else []
  }

  /**
   * The update of the process-wide list of discovered keys (v1.py:542-546):
   * only keys not known yet are appended, in the document's key order, so the
   * old list is a prefix of the new one and every key of the document becomes
   * known.
   */
  function AccumulateKeys(known: seq<string>, j: Json): (keys: seq<string>)
    ensures |known| <= |keys| && keys[..|known|] == known
    ensures forall k :: k in keys <==> k in known || k in GatherChangeIntervalKeys(j)
    ensures IsSubseq(keys[|known|..], GatherChangeIntervalKeys(j))
    ensures forall k :: multiset(keys[|known|..])[k] == if k in known then 0 else multiset(GatherChangeIntervalKeys(j))[k]
  {
    AppendMissing(known, GatherChangeIntervalKeys(j))
  }

  /**
   * The metric-trend and change-interval part of the growth for one ticker
   * (v1.py:547-556): when there are newly discovered keys, the missing
   * metric-trend columns and the new keys' columns are appended in one write;
   * otherwise only the missing metric-trend columns, if any.
   */
  function GrowColumns(header: seq<string>, toAdd: seq<string>): (r: seq<string>)
    ensures |header| <= |r| && r[..|header|] == header
  {
    var neededMetrics := Missing(header, MetricColumns());
    if toAdd != [] then AppendMissing(header, neededMetrics + ChangeIntervalColumns(toAdd))
    else if neededMetrics != [] then AppendMissing(header, neededMetrics)
    else header
  }

  /** `raw_json` is appended when the header lacks it (v1.py:557-560). */
  function EnsureRawJson(header: seq<string>): (r: seq<string>)
    ensures |header| <= |r| && r[..|header|] == header
    ensures RAW_JSON in r
    ensures RAW_JSON in header ==> r == header
    ensures forall c :: c in r ==> c in header || c == RAW_JSON
  {
    if RAW_JSON in header then header else AppendMissing(header, [RAW_JSON])
  }

  /** The header after one fetched ticker (v1.py:540-560). */
  function GrowHeaders(header: seq<string>, known: seq<string>, j: Json): (r: seq<string>)
    ensures |header| <= |r| && r[..|header|] == header
    ensures RAW_JSON in r
  {
    var grown := GrowColumns(header, Missing(known, GatherChangeIntervalKeys(j)));
    var r := EnsureRawJson(grown);
    assert r[..|header|] == grown[..|header|];
    r
  }

  /**
   * The header holds every metric-trend column, the change-interval column of
   * every known key, and `raw_json`.
   */
  ghost predicate Covers(header: seq<string>, known: seq<string>) {
    && (forall k :: k in METRIC_TRENDS_KEYS ==> MetricColumn(k) in header)
    && (forall k :: k in known ==> ChangeIntervalColumn(k) in header)
    && RAW_JSON in header
  }

  lemma MetricColumnsListed(k: string)
    requires k in METRIC_TRENDS_KEYS
    ensures MetricColumn(k) in MetricColumns()
  {
    var i :| 0 <= i < |METRIC_TRENDS_KEYS| && METRIC_TRENDS_KEYS[i] == k;
    assert MetricColumns()[i] == MetricColumn(k);
  }

  lemma ChangeIntervalColumnsListed(keys: seq<string>, k: string)
    requires k in keys
    ensures ChangeIntervalColumn(k) in ChangeIntervalColumns(keys)
  {
    var i :| 0 <= i < |keys| && keys[i] == k;
    assert ChangeIntervalColumns(keys)[i] == ChangeIntervalColumn(k);
  }

  /** The column name gives its key back: the text after the prefix. */
  lemma ChangeIntervalColumnKey(k: string)
    ensures |CHANGE_INTERVAL_PREFIX| <= |ChangeIntervalColumn(k)|
    ensures ChangeIntervalColumn(k)[..|CHANGE_INTERVAL_PREFIX|] == CHANGE_INTERVAL_PREFIX
    ensures ChangeIntervalColumn(k)[|CHANGE_INTERVAL_PREFIX|..] == k
  {
  }

  /** Distinct keys get distinct change-interval columns. */
  lemma ChangeIntervalColumnsNoDup(keys: seq<string>)
    requires NoDup(keys)
    ensures NoDup(ChangeIntervalColumns(keys))
  {
    var cs := ChangeIntervalColumns(keys);
    forall i, j | 0 <= i < j < |cs| ensures cs[i] != cs[j] {
      ChangeIntervalColumnKey(keys[i]);
      ChangeIntervalColumnKey(keys[j]);
    }
  }

  /** Distinct keys behind one prefix give distinct column names. */
  lemma PrefixedNoDup(p: string, keys: seq<string>, cs: seq<string>)
    requires NoDup(keys) && |cs| == |keys|
    requires forall i :: 0 <= i < |cs| ==> cs[i] == p + keys[i]
    ensures NoDup(cs)
  {
    forall i, j | 0 <= i < j < |cs| ensures cs[i] != cs[j] {
      assert (p + keys[i])[|p|..] == keys[i] && (p + keys[j])[|p|..] == keys[j];
    }
  }

  /** The metric-trend columns are distinct. */
  lemma MetricColumnsNoDup()
    ensures NoDup(MetricColumns())
  {
    assert NoDup(METRIC_TRENDS_KEYS);
    PrefixedNoDup(METRIC_PREFIX, METRIC_TRENDS_KEYS, MetricColumns());
  }

  /** Two lists without repeats and without a common element join into one without repeats. */
  lemma NoDupConcat(a: seq<string>, b: seq<string>)
    requires NoDup(a) && NoDup(b)
    requires forall x :: x in a ==> x !in b
    ensures NoDup(a + b)
  {
    forall i, j | 0 <= i < j < |a + b| ensures (a + b)[i] != (a + b)[j] {
      if i < |a| <= j {
        assert (a + b)[i] == a[i] && a[i] in a;
        assert (a + b)[j] == b[j - |a|] && b[j - |a|] in b;
      }
    }
  }

  /** Every column of `cs` starts with the letter `ch`. */
  predicate StartsWith(cs: seq<string>, ch: char) {
    forall i :: 0 <= i < |cs| ==> cs[i] != [] && cs[i][0] == ch
  }

  /**
   * Each family of prefixed columns starts with its prefix's first letter,
   * which keeps the families apart.
   */
  lemma FamiliesStartWithPrefix(keys: seq<string>)
    ensures StartsWith(SentimentTypeColumns(), 's') && StartsWith(AssetColumns(), 'a')
    ensures StartsWith(MetricColumns(), 'm') && StartsWith(ChangeIntervalColumns(keys), 'c')
  {
    forall i | 0 <= i < |SENTIMENT_TYPE_KEYS|
      ensures SentimentTypeColumns()[i][0] == 's'
    {
      assert SentimentTypeColumns()[i][0] == SENTIMENT_TYPE_PREFIX[0];
    }
    forall i | 0 <= i < |ASSET_FIELDS|
      ensures AssetColumns()[i][0] == 'a'
    {
      assert AssetColumns()[i][0] == ASSET_PREFIX[0];
    }
    forall i | 0 <= i < |METRIC_TRENDS_KEYS|
      ensures MetricColumns()[i][0] == 'm'
    {
      assert MetricColumns()[i][0] == METRIC_PREFIX[0];
    }
    forall i | 0 <= i < |keys|
      ensures ChangeIntervalColumns(keys)[i][0] == 'c'
    {
      assert ChangeIntervalColumns(keys)[i][0] == CHANGE_INTERVAL_PREFIX[0];
    }
  }

  /** The change-interval keys of a document whose objects bind each key once are distinct. */
  lemma GatherChangeIntervalKeysNoDup(j: Json)
    requires DistinctKeys(j)
    ensures NoDup(GatherChangeIntervalKeys(j))
  {
    NestedGetKeepsDistinctKeys(j, ["data", "change_intervals"], JObj([]));
  }

  /** The discovered key list never lists a key twice when the documents do not. */
  lemma AccumulateKeysNoDup(known: seq<string>, j: Json)
    requires NoDup(known) && NoDup(GatherChangeIntervalKeys(j))
    ensures NoDup(AccumulateKeys(known, j))
  {
    AppendMissingNoDup(known, GatherChangeIntervalKeys(j));
  }

  /** The column growth never appends a column the header already holds, nor one twice. */
  lemma GrowColumnsNoDup(header: seq<string>, toAdd: seq<string>)
    requires NoDup(header) && NoDup(toAdd)
    ensures NoDup(GrowColumns(header, toAdd))
  {
    var neededMetrics := Missing(header, MetricColumns());
    MetricColumnsNoDup();
    MissingNoDup(header, MetricColumns());
    if toAdd != [] {
      var cs := ChangeIntervalColumns(toAdd);
      ChangeIntervalColumnsNoDup(toAdd);
      FamiliesStartWithPrefix(toAdd);
      forall x | x in neededMetrics ensures x !in cs {
        var a :| 0 <= a < |MetricColumns()| && MetricColumns()[a] == x;
        assert x[0] == 'm';
      }
      NoDupConcat(neededMetrics, cs);
      AppendMissingNoDup(header, neededMetrics + cs);
    } else if neededMetrics != [] {
      AppendMissingNoDup(header, neededMetrics);
    }
  }

  /** Adding `raw_json` keeps a header without repeats. */
  lemma EnsureRawJsonNoDup(header: seq<string>)
    requires NoDup(header)
    ensures NoDup(EnsureRawJson(header))
  {
    AppendMissingNoDup(header, [RAW_JSON]);
  }

  /**
   * The first invariant of the header row: growing a header without repeated
   * columns for a document whose change-interval keys are distinct leaves it
   * without repeated columns.
   */
  lemma GrowHeadersNoDup(header: seq<string>, known: seq<string>, j: Json)
    requires NoDup(header) && NoDup(GatherChangeIntervalKeys(j))
    ensures NoDup(GrowHeaders(header, known, j))
  {
    var toAdd := Missing(known, GatherChangeIntervalKeys(j));
    MissingNoDup(known, GatherChangeIntervalKeys(j));
    GrowColumnsNoDup(header, toAdd);
    EnsureRawJsonNoDup(GrowColumns(header, toAdd));
  }

  /**
   * The column growth keeps the header as a prefix, leaves it holding every
   * metric-trend column and every new key's column, and adds nothing else.
   */
  lemma GrowColumnsSpec(header: seq<string>, toAdd: seq<string>)
    ensures var h := GrowColumns(header, toAdd);
      && |header| <= |h| && h[..|header|] == header
      && (forall k :: k in METRIC_TRENDS_KEYS ==> MetricColumn(k) in h)
      && (forall k :: k in toAdd ==> ChangeIntervalColumn(k) in h)
      && (forall c :: c in h ==> c in header || c in MetricColumns() || c in ChangeIntervalColumns(toAdd))
  {
    var h := GrowColumns(header, toAdd);
    var neededMetrics := Missing(header, MetricColumns());
    if neededMetrics == [] {
      MissingEmptyIff(header, MetricColumns());
    }
    forall k | k in METRIC_TRENDS_KEYS ensures MetricColumn(k) in h {
      MetricColumnsListed(k);
    }
    forall k | k in toAdd ensures ChangeIntervalColumn(k) in h {
      ChangeIntervalColumnsListed(toAdd, k);
    }
  }

  /**
   * Header growth never removes or reorders a column, adds only metric-trend
   * columns, columns of newly discovered keys and `raw_json`, and afterwards
   * the header holds every metric-trend column, every new key's column and
   * `raw_json`; so a header that covered the known keys covers the grown list.
   */
  lemma GrowHeadersSpec(header: seq<string>, known: seq<string>, j: Json)
    ensures var h := GrowHeaders(header, known, j);
      var toAdd := Missing(known, GatherChangeIntervalKeys(j));
      && |header| <= |h| && h[..|header|] == header
      && (forall k :: k in METRIC_TRENDS_KEYS ==> MetricColumn(k) in h)
      && (forall k :: k in toAdd ==> ChangeIntervalColumn(k) in h)
      && RAW_JSON in h
      && (forall c :: c in h ==> c in header || c in MetricColumns() || c in ChangeIntervalColumns(toAdd) || c == RAW_JSON)
    ensures Covers(header, known) ==> Covers(GrowHeaders(header, known, j), AccumulateKeys(known, j))
  {
    var toAdd := Missing(known, GatherChangeIntervalKeys(j));
    var h1 := GrowColumns(header, toAdd);
    var h := EnsureRawJson(h1);
    GrowColumnsSpec(header, toAdd);
    assert h[..|h1|] == h1;
    assert h[..|header|] == h1[..|header|];
    assert forall c :: c in h ==> c in h1 || c == RAW_JSON;
    assert forall c :: c in h1 ==> c in h;
  }
}
