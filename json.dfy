/** An optional value, shared by the other modules. */
module Wrappers {
  datatype Option<+T> = None | Some(value: T)
}

/**
 * The parsed JSON document of one ticker, as the Python program sees it after
 * `resp.json()`: a tagged tree. `JNull` is Python's `None` (JSON `null` and a
 * missing value coincide there). An object is an ordered association list, so
 * that dict iteration order is part of the value. The type admits a key bound
 * twice, which a Python dict cannot hold; `DistinctKeys` singles out the trees
 * `json.loads` can produce. A lookup returns the first binding of a key.
 * Numbers are integers: floating point is not modelled.
 */
module JsonValue {
  import opened Wrappers

  datatype Json =
    | JNull
    | JBool(b: bool)
    | JNum(n: int)
    | JStr(s: string)
    | JArr(items: seq<Json>)
    | JObj(fields: seq<(string, Json)>)

  /** `isinstance(x, (int, float, str, bool))`. */
  predicate IsScalar(j: Json) {
    j.JBool? || j.JNum? || j.JStr?
  }

  /** Python truthiness, as used by `a or b`: None, False, 0, "", [] and {} are falsy. */
  predicate Truthy(j: Json) {
    match j
    case JNull => false
    case JBool(b) => b
    case JNum(n) => n != 0
    case JStr(s) => s != ""
    case JArr(items) => items != []
    case JObj(fields) => fields != []
  }

  /** `key in obj` on the association list of an object. */
  predicate HasKey(fields: seq<(string, Json)>, key: string) {
    exists i :: 0 <= i < |fields| && fields[i].0 == key
  }

  /** `obj.get(key)` on the association list of an object: the first binding of `key`. */
  function Lookup(fields: seq<(string, Json)>, key: string): (r: Option<Json>)
    ensures r.None? <==> !HasKey(fields, key)
    ensures r.Some? ==> exists i :: 0 <= i < |fields| && fields[i] == (key, r.value)
  {
    if |fields| == 0 then None
    else if fields[0].0 == key then Some(fields[0].1)
    else
      var r := Lookup(fields[1..], key);
      assert HasKey(fields, key) ==> fields[0].0 == key || HasKey(fields[1..], key) by {
        if HasKey(fields, key) {
          var i :| 0 <= i < |fields| && fields[i].0 == key;
          if i > 0 { assert fields[1..][i - 1].0 == key; }
        }
      }
      if r.Some? then
        var i :| 0 <= i < |fields[1..]| && fields[1..][i] == (key, r.value);
        assert fields[i + 1] == (key, r.value);
        r
      else r
  }

  /** `d.get(key, default)` where `d` may be any value; a non-object gives the default. */
  function GetOr(d: Json, key: string, default: Json): Json {
    if d.JObj? then
      match Lookup(d.fields, key)
      case Some(v) => v
      case None => default
    else default
  }

  /** The keys of an object in iteration order (`list(obj.keys())`). */
  function Keys(fields: seq<(string, Json)>): (ks: seq<string>)
    ensures |ks| == |fields|
    ensures forall i :: 0 <= i < |fields| ==> ks[i] == fields[i].0
  {
    seq(|fields|, i requires 0 <= i < |fields| => fields[i].0)
  }

  /** Each key is bound once in the association list. */
  predicate UniqueKeys(fields: seq<(string, Json)>) {
    forall a, b :: 0 <= a < b < |fields| ==> fields[a].0 != fields[b].0
  }

  /** Every object anywhere inside `j` binds each key once, as a parsed Python dict does. */
  predicate DistinctKeys(j: Json) {
    match j
    case JArr(items) => forall i :: 0 <= i < |items| ==> DistinctKeys(items[i])
    case JObj(fields) =>
      && UniqueKeys(fields)
      && forall i :: 0 <= i < |fields| ==> DistinctKeys(fields[i].1)
    case _ => true
  }

  /** A value found by a lookup in a tree of distinct keys has distinct keys itself. */
  lemma LookupKeepsDistinctKeys(fields: seq<(string, Json)>, key: string)
    requires DistinctKeys(JObj(fields)) && HasKey(fields, key)
    ensures DistinctKeys(Lookup(fields, key).value)
  {
    var i :| 0 <= i < |fields| && fields[i] == (key, Lookup(fields, key).value);
  }

  /** Decimal text of an integer, as `str(int)` writes it. */
  function IntToText(n: int): (r: string)
    ensures r != []
    ensures n < 0 <==> r[0] == '-'
  {
    if n < 0 then "-" + NatToText(-n) else NatToText(n)
  }

  function NatToText(n: nat): (r: string)
    ensures r != []
    ensures forall i :: 0 <= i < |r| ==> '0' <= r[i] <= '9'
  {
    var d := [(('0' as int) + n % 10) as char];
    if n < 10 then d else NatToText(n / 10) + d
  }

  function Join(parts: seq<string>, sep: string): string {
    if |parts| == 0 then ""
    else if |parts| == 1 then parts[0]
    else parts[0] + sep + Join(parts[1..], sep)
  }

  function Quote(s: string): string {
    "\"" + s + "\""
  }

  /**
   * A compact JSON text in the shape `json.dumps` gives it (", " and ": "
   * separators). String escaping is not modelled.
   */
  function Dumps(j: Json): (r: string)
    ensures r != []
    ensures j.JArr? ==> r[0] == '['
    ensures j.JObj? ==> r[0] == '{'
  {
    match j
    case JNull => "null"
    case JBool(b) => if b then "true" else "false"
    case JNum(n) => IntToText(n)
    case JStr(s) => Quote(s)
    case JArr(items) =>
      "[" + Join(seq(|items|, i requires 0 <= i < |items| => Dumps(items[i])), ", ") + "]"
    case JObj(fields) =>
      "{" + Join(seq(|fields|, i requires 0 <= i < |fields| =>
                       Quote(fields[i].0) + ": " + Dumps(fields[i].1)), ", ") + "}"
  }

  /**
   * `safe_str`: the text of a value destined for a cell. None gives the empty
   * cell, a scalar its own text (`str(True) == "True"`), and an array or an
   * object its JSON text.
   */
  function SafeStr(v: Json): (r: string)
    ensures r == "" <==> v == JNull || v == JStr("")
    ensures v.JStr? ==> r == v.s
    ensures v.JArr? || v.JObj? ==> r == Dumps(v)
  {
    match v
    case JNull => ""
    case JBool(b) => if b then "True" else "False"
    case JNum(n) => IntToText(n)
    case JStr(s) => s
    case _ => Dumps(v)
  }
}
