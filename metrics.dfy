/**
 * Metric trends: the fixed list of metric names and `pick_scalar_from_metric_obj`,
 * which reduces one metric's raw value to a single cell value.
 */
module Metrics {
  import opened Wrappers
  import opened JsonValue

  /** `METRIC_TRENDS_KEYS`, in the order the columns are created. */
  const METRIC_TRENDS_KEYS: seq<string> := [
    "contributors_active", "contributors_created", "interactions", "posts_active", "posts_created",
    "sentiment", "spam", "alt_rank", "circulating_supply", "close", "galaxy_score", "market_cap",
    "market_dominance", "social_dominance", "volume_24h"
  ]

  /** The conventional sub-keys of a metric object, in order of preference. */
  const CONVENTIONAL_KEYS: seq<string> := ["value", "current", "count", "latest", "v", "val"]

  /** The first of `candidates` that `fields` binds to a scalar, and that scalar. */
  function FirstConventional(fields: seq<(string, Json)>, candidates: seq<string>): (r: Option<Json>)
    ensures r.Some? ==> IsScalar(r.value)
    ensures r.Some? ==> exists m :: 0 <= m < |candidates| && Lookup(fields, candidates[m]) == r
  {
    if candidates == [] then None
    else
      match Lookup(fields, candidates[0])
      case Some(v) => if IsScalar(v) then Some(v) else FirstConventional(fields, candidates[1..])
      case None => FirstConventional(fields, candidates[1..])
  }

  /** The first scalar value of an object, in iteration order. */
  function FirstScalarValue(fields: seq<(string, Json)>): (r: Option<Json>)
    ensures r.Some? ==> IsScalar(r.value)
    ensures r.Some? ==> exists m :: 0 <= m < |fields| && fields[m].1 == r.value
  {
    if fields == [] then None
    else if IsScalar(fields[0].1) then Some(fields[0].1)
    else FirstScalarValue(fields[1..])
  }

  /** `fields` binds `c` to a scalar. */
  predicate BindsScalar(fields: seq<(string, Json)>, c: string) {
    Lookup(fields, c).Some? && IsScalar(Lookup(fields, c).value)
  }

  /**
   * `pick_scalar_from_metric_obj`: None stays None and a scalar is kept; an
   * object gives its first conventional scalar sub-value, else its first
   * scalar value, else its serialisation; a non-empty array gives its first
   * element when that is scalar, else its serialisation; an empty array
   * gives None.
   */
  function PickScalar(metric: Json): (r: Json)
    ensures r == JNull || IsScalar(r)
    ensures r == JNull <==> metric == JNull || metric == JArr([])
    ensures IsScalar(metric) ==> r == metric
  {
    match metric
    case JNull => JNull
    case JBool(_) => metric
    case JNum(_) => metric
    case JStr(_) => metric
    case JObj(fields) =>
      (match FirstConventional(fields, CONVENTIONAL_KEYS)
       case Some(v) => v
       case None =>
         match FirstScalarValue(fields)
         case Some(v) => v
         case None => JStr(Dumps(metric)))
    case JArr(items) =>
      if items == [] then JNull
      else if IsScalar(items[0]) then items[0]
      else JStr(Dumps(metric))
  }

  /** The candidate loop returns the binding of the first candidate bound to a scalar. */
  lemma {:induction false} FirstConventionalSpec(fields: seq<(string, Json)>, candidates: seq<string>, i: nat)
    requires i < |candidates| && BindsScalar(fields, candidates[i])
    requires forall m :: 0 <= m < i ==> !BindsScalar(fields, candidates[m])
    ensures FirstConventional(fields, candidates) == Some(Lookup(fields, candidates[i]).value)
  {
    if i > 0 {
      assert !BindsScalar(fields, candidates[0]);
      FirstConventionalSpec(fields, candidates[1..], i - 1);
    }
  }

  lemma {:induction false} FirstConventionalNone(fields: seq<(string, Json)>, candidates: seq<string>)
    requires forall m :: 0 <= m < |candidates| ==> !BindsScalar(fields, candidates[m])
    ensures FirstConventional(fields, candidates) == None
  {
    if candidates != [] {
      assert !BindsScalar(fields, candidates[0]);
      FirstConventionalNone(fields, candidates[1..]);
    }
  }

  lemma {:induction false} FirstScalarValueSpec(fields: seq<(string, Json)>, i: nat)
    requires i < |fields| && IsScalar(fields[i].1)
    requires forall m :: 0 <= m < i ==> !IsScalar(fields[m].1)
    ensures FirstScalarValue(fields) == Some(fields[i].1)
  {
    if i > 0 {
      FirstScalarValueSpec(fields[1..], i - 1);
    }
  }

  lemma {:induction false} FirstScalarValueNone(fields: seq<(string, Json)>)
    requires forall m :: 0 <= m < |fields| ==> !IsScalar(fields[m].1)
    ensures FirstScalarValue(fields) == None
  {
    if fields != [] {
      FirstScalarValueNone(fields[1..]);
    }
  }

  /** For an object, the first conventional key bound to a scalar wins. */
  lemma PickPrefersConventional(fields: seq<(string, Json)>, i: nat)
    requires i < |CONVENTIONAL_KEYS| && BindsScalar(fields, CONVENTIONAL_KEYS[i])
    requires forall m :: 0 <= m < i ==> !BindsScalar(fields, CONVENTIONAL_KEYS[m])
    ensures PickScalar(JObj(fields)) == Lookup(fields, CONVENTIONAL_KEYS[i]).value
  {
    FirstConventionalSpec(fields, CONVENTIONAL_KEYS, i);
  }

  /** Without a conventional scalar, the first scalar entry in iteration order wins. */
  lemma PickFallsBackToFirstScalar(fields: seq<(string, Json)>, i: nat)
    requires forall m :: 0 <= m < |CONVENTIONAL_KEYS| ==> !BindsScalar(fields, CONVENTIONAL_KEYS[m])
    requires i < |fields| && IsScalar(fields[i].1)
    requires forall m :: 0 <= m < i ==> !IsScalar(fields[m].1)
    ensures PickScalar(JObj(fields)) == fields[i].1
  {
    FirstConventionalNone(fields, CONVENTIONAL_KEYS);
    FirstScalarValueSpec(fields, i);
  }

  /** An object without any scalar value is serialised; the empty object gives "{}". */
  lemma PickSerialisesScalarFreeObject(fields: seq<(string, Json)>)
    requires forall m :: 0 <= m < |fields| ==> !IsScalar(fields[m].1)
    ensures PickScalar(JObj(fields)) == JStr(Dumps(JObj(fields)))
    ensures fields == [] ==> PickScalar(JObj(fields)) == JStr("{}")
  {
    forall m | 0 <= m < |CONVENTIONAL_KEYS|
      ensures !BindsScalar(fields, CONVENTIONAL_KEYS[m])
    {
      var c := CONVENTIONAL_KEYS[m];
      if Lookup(fields, c).Some? {
        var k :| 0 <= k < |fields| && fields[k] == (c, Lookup(fields, c).value);
        assert !IsScalar(fields[k].1);
      }
    }
    FirstConventionalNone(fields, CONVENTIONAL_KEYS);
    FirstScalarValueNone(fields);
  }

  /** A non-empty list gives its first element when that is a scalar, else its serialisation. */
  lemma PickListCase(items: seq<Json>)
    requires items != []
    ensures PickScalar(JArr(items)) == if IsScalar(items[0]) then items[0] else JStr(Dumps(JArr(items)))
  {
  }

  /** `{"value": 5, "current": 9}` gives 5 and `{"foo": "bar"}` gives "bar". */
  lemma PickExamples()
    ensures PickScalar(JObj([("value", JNum(5)), ("current", JNum(9))])) == JNum(5)
    ensures PickScalar(JObj([("foo", JStr("bar"))])) == JStr("bar")
  {
    PickPrefersConventional([("value", JNum(5)), ("current", JNum(9))], 0);
    var foo := [("foo", JStr("bar"))];
    forall m | 0 <= m < |CONVENTIONAL_KEYS|
      ensures !BindsScalar(foo, CONVENTIONAL_KEYS[m])
    {
      assert Lookup(foo, CONVENTIONAL_KEYS[m]) == Lookup(foo[1..], CONVENTIONAL_KEYS[m]);
    }
    PickFallsBackToFirstScalar(foo, 0);
  }
}
