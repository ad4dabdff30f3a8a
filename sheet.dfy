/**
 * The data sheet as the updater sees it (the header in row 3, column A, and
 * the data rows from row 4 on), the per-ticker upsert of the main run, and
 * one whole run over the ticker list.
 */
module Store {
  import opened Wrappers
  import opened JsonValue
  import opened Cells
  import opened Rows
  import opened Schema
  import opened Flatten
  import opened Metrics

  // ---------------------------------------------------------------------------
  // Column A

  /** `ws.col_values(1)`: column A without its trailing blank cells. */
  function ColValues(col: seq<string>): (v: seq<string>)
    ensures |v| <= |col| && v == col[..|v|]
    ensures v != [] ==> v[|v| - 1] != ""
  {
    if col != [] && col[|col| - 1] == "" then ColValues(col[..|col| - 1]) else col
  }

  lemma {:induction false} ColValuesSpec(col: seq<string>)
    ensures var v := ColValues(col);
      && |v| <= |col| && v == col[..|v|]
      && (forall k :: |v| <= k < |col| ==> col[k] == "")
      && (v != [] ==> v[|v| - 1] != "")
  {
    if col != [] && col[|col| - 1] == "" {
      ColValuesSpec(col[..|col| - 1]);
    }
  }

  /** Cell `row` (1-based) of column A; blank beyond the end. */
  function CellA(col: seq<string>, row: nat): string {
    if 1 <= row <= |col| then col[row - 1] else ""
  }

  /** Column A after writing `v` into row `row`, padded with blank cells when the row lies beyond the end. */
  function SetCell(col: seq<string>, row: nat, v: string): (r: seq<string>)
    requires row >= 1
    ensures |r| == if row <= |col| then |col| else row
    ensures CellA(r, row) == v
    ensures forall k :: k != row ==> CellA(r, k) == CellA(col, k)
  {
    var padded := if row <= |col| then col else col + seq(row - |col|, _ => "");
    padded[row - 1 := v]
  }

  /** Cells that were written over a longer row keep the old cells past the new row's end. */
  function Overlay(old_row: seq<string>, row: seq<string>): (r: seq<string>)
    ensures |r| == if |old_row| > |row| then |old_row| else |row|
    ensures r[..|row|] == row
    ensures forall k :: |row| <= k < |r| ==> r[k] == old_row[k]
  {
    if |old_row| > |row| then row + old_row[|row|..] else row
  }

  /** The cells of data row `r` as far as they were written; empty when never written. */
  function RowAt(rows: map<nat, seq<string>>, r: nat): seq<string> {
    if r in rows then rows[r] else []
  }

  /** The first cell of every written data row is the cell of column A in that row. */
  ghost predicate RowsMatchColumnA(rows: map<nat, seq<string>>, col: seq<string>) {
    forall r :: r in rows ==> r >= DATA_START_ROW && (rows[r] != [] ==> rows[r][0] == CellA(col, r))
  }

  /** Some data row holds `t` in column A. */
  ghost predicate Listed(col: seq<string>, t: string) {
    exists k :: k >= DATA_START_ROW && HoldsTicker(col, t, k)
  }

  /** Blank cells match no ticker that is not blank itself. */
  lemma BlankMatchesNothing(t: string)
    requires Strip(t) != ""
    ensures Normalize("") != Normalize(t)
  {
    assert Strip("") == "";
  }

  /** For a non-blank ticker, the trailing blanks `col_values` drops make no difference to the search. */
  lemma FirstMatchOfColValues(col: seq<string>, t: string, start: nat)
    requires start >= 1 && Strip(t) != ""
    ensures FirstMatch(ColValues(col), t, start) == FirstMatch(col, t, start)
  {
    var v := ColValues(col);
    ColValuesSpec(col);
    BlankMatchesNothing(t);
    assert forall k :: k >= 1 ==> (HoldsTicker(v, t, k) <==> HoldsTicker(col, t, k));
    FirstMatchSpec(v, t, start);
    FirstMatchSpec(col, t, start);
    var a := FirstMatch(v, t, start);
    var b := FirstMatch(col, t, start);
    if a.Some? && b.Some? {
      assert !(a.value < b.value) && !(b.value < a.value);
    }
  }

  /** The smallest matching row at or after `start` is what the search returns. */
  lemma FirstMatchIs(col: seq<string>, t: string, start: nat, r: nat)
    requires start >= 1 && start <= r && HoldsTicker(col, t, r)
    requires forall k :: start <= k < r ==> !HoldsTicker(col, t, k)
    ensures FirstMatch(col, t, start) == Some(r)
  {
    FirstMatchSpec(col, t, start);
    var a := FirstMatch(col, t, start);
    if a.Some? {
      assert !(a.value < r) && !(r < a.value);
    }
  }

  /**
   * The row a ticker is written to: the first data row holding it, else the
   * row below the last populated cell of column A.
   */
  function Target(col: seq<string>, t: string): (r: nat)
    ensures r >= DATA_START_ROW
  {
    match FirstMatch(ColValues(col), t, DATA_START_ROW)
    case Some(r) =>
      FirstMatchSpec(ColValues(col), t, DATA_START_ROW);
      r
    case None => AppendIndex(ColValues(col))
  }

  /** For a non-blank ticker, a row holds it exactly when its cell of column A does. */
  lemma HoldsByCell(col: seq<string>, t: string, k: nat)
    requires k >= 1 && Strip(t) != ""
    ensures HoldsTicker(col, t, k) <==> Normalize(CellA(col, k)) == Normalize(t)
  {
    BlankMatchesNothing(t);
  }

  /** No data row above the target holds the ticker. */
  lemma NothingAboveTarget(col: seq<string>, t: string, k: nat)
    requires Strip(t) != "" && DATA_START_ROW <= k < Target(col, t)
    ensures !HoldsTicker(col, t, k)
  {
    FirstMatchOfColValues(col, t, DATA_START_ROW);
    FirstMatchSpec(col, t, DATA_START_ROW);
    ColValuesSpec(col);
    HoldsByCell(col, t, k);
    if FirstMatch(col, t, DATA_START_ROW).None? {
      assert !HoldsTicker(col, t, k);
    }
  }

  /** A non-blank ticker held by some row lies within the populated part of column A. */
  lemma HeldRowIsPopulated(col: seq<string>, t: string, k: nat)
    requires Strip(t) != "" && HoldsTicker(col, t, k)
    ensures k <= |ColValues(col)|
  {
    ColValuesSpec(col);
    BlankMatchesNothing(t);
    assert col[k - 1] != "";
  }

  /**
   * After the ticker's own name is written into its target row, the search
   * finds the ticker in exactly that row.
   */
  lemma FoundAtTargetAfterWrite(col: seq<string>, t: string, v: string)
    requires Strip(t) != "" && Normalize(v) == Normalize(t)
    ensures FirstMatch(ColValues(SetCell(col, Target(col, t), v)), t, DATA_START_ROW) == Some(Target(col, t))
  {
    var r := Target(col, t);
    var col' := SetCell(col, r, v);
    FirstMatchOfColValues(col', t, DATA_START_ROW);
    HoldsByCell(col', t, r);
    forall k | DATA_START_ROW <= k < r
      ensures !HoldsTicker(col', t, k)
    {
      NothingAboveTarget(col, t, k);
      HoldsByCell(col, t, k);
      HoldsByCell(col', t, k);
    }
    FirstMatchIs(col', t, DATA_START_ROW, r);
  }

  /**
   * Writing `v` into the target row of `t` keeps every ticker `u` that was
   * listed before listed: the target is either past the populated cells or a
   * row already holding `t`, and then `u` is `t` up to padding and case
   * whenever that row was the one holding `u`.
   */
  lemma ListedSurvivesWrite(col: seq<string>, t: string, v: string, u: string)
    requires Strip(u) != "" && Listed(col, u)
    requires Normalize(v) == Normalize(t)
    ensures Listed(SetCell(col, Target(col, t), v), u)
  {
    var r := Target(col, t);
    var col' := SetCell(col, r, v);
    var k :| k >= DATA_START_ROW && HoldsTicker(col, u, k);
    HeldRowIsPopulated(col, u, k);
    HoldsByCell(col, u, k);
    HoldsByCell(col', u, k);
    if k == r {
      PopulatedTargetHoldsTicker(col, t);
    }
  }

  /** A target row within the populated cells is a row that already holds the ticker. */
  lemma PopulatedTargetHoldsTicker(col: seq<string>, t: string)
    requires Target(col, t) <= |ColValues(col)|
    ensures Normalize(CellA(col, Target(col, t))) == Normalize(t)
  {
    var r := Target(col, t);
    FirstMatchSpec(ColValues(col), t, DATA_START_ROW);
    ColValuesSpec(col);
    assert CellA(col, r) == ColValues(col)[r - 1];
  }

  /**
   * A row whose cell of column A is filled but does not match `t` is never
   * the target of `t`: the target either holds `t` already or lies past the
   * populated cells, where column A is blank.
   */
  lemma TargetAvoidsOtherCells(col: seq<string>, t: string, k: nat)
    requires CellA(col, k) != "" && Normalize(CellA(col, k)) != Normalize(t)
    ensures k != Target(col, t)
  {
    var r := Target(col, t);
    ColValuesSpec(col);
    if r <= |ColValues(col)| {
      PopulatedTargetHoldsTicker(col, t);
    } else {
      assert CellA(col, r) == "";
    }
  }

  /** A data row whose cell of column A is filled and names none of `tickers`. */
  predicate Unlisted(col: seq<string>, tickers: seq<string>, r: nat) {
    && r >= DATA_START_ROW && CellA(col, r) != ""
    && forall m :: 0 <= m < |tickers| ==> Normalize(CellA(col, r)) != Normalize(tickers[m])
  }

  /**
   * Writing ticker `i` of the list into its target row, and nothing else,
   * keeps every row that names no ticker of the list.
   */
  lemma WriteKeepsUnlisted(c: seq<string>, rs: map<nat, seq<string>>, tickers: seq<string>, i: nat,
                           col: seq<string>, rows: map<nat, seq<string>>,
                           col': seq<string>, rows': map<nat, seq<string>>)
    requires i < |tickers| && KeepsUnlisted(c, rs, tickers, col, rows)
    requires forall r: nat :: r != Target(col, tickers[i]) ==>
      RowAt(rows', r) == RowAt(rows, r) && CellA(col', r) == CellA(col, r)
    ensures KeepsUnlisted(c, rs, tickers, col', rows')
  {
    forall r: nat | Unlisted(c, tickers, r)
      ensures RowAt(rows', r) == RowAt(rs, r) && CellA(col', r) == CellA(c, r)
    {
      assert Normalize(CellA(c, r)) != Normalize(tickers[i]);
      TargetAvoidsOtherCells(col, tickers[i], r);
    }
  }

  /** A row stays unlisted when its cell of column A is not rewritten. */
  lemma UnlistedKept(c: seq<string>, c': seq<string>, tickers: seq<string>, r: nat)
    requires Unlisted(c, tickers, r) && CellA(c', r) == CellA(c, r)
    ensures Unlisted(c', tickers, r)
  {
  }

  /**
   * Every row that was unlisted in `c` for `tickers` still has the contents
   * `rs` gave it and the same cell of column A.
   */
  ghost predicate KeepsUnlisted(c: seq<string>, rs: map<nat, seq<string>>, tickers: seq<string>,
                                col: seq<string>, rows: map<nat, seq<string>>) {
    forall r: nat :: Unlisted(c, tickers, r) ==> RowAt(rows, r) == RowAt(rs, r) && CellA(col, r) == CellA(c, r)
  }

  // ---------------------------------------------------------------------------
  // Rows written for a ticker

  /** The values map of a fetched document, with the ticker added (v1.py:562-567). */
  function ValuesFor(j: Json, keys: seq<string>, t: string): ValuesMap {
    var base := if j.JObj? then (map c | c in FlatColumns() + MetricColumns() + ChangeIntervalColumns(keys) :: ColumnValue(j, c))
                else map[];
    base["ticker" := JStr(t)]
  }

  /** A fetch produced a document; None and JSON `null` both count as no document. */
  predicate Fetched(doc: Option<Json>) {
    doc.Some? && doc.value != JNull
  }

  /** `raw_json` is not a column the flattener fills. */
  lemma RawJsonIsNotFlat(keys: seq<string>)
    ensures RAW_JSON !in FlatColumns() + MetricColumns() + ChangeIntervalColumns(keys)
  {
    FamiliesStartWithPrefix(keys);
    assert RAW_JSON !in DATA_COUNT_KEYS + ["alerts", "ai_summary", "ai_summary_supportive"] + TYPES_COLUMNS;
    assert RAW_JSON !in TRAILING_DATA_KEYS;
  }

  /** No column of a freshly created header row is a change-interval column. */
  lemma InitialHeadersHaveNoChangeIntervalColumn(k: string)
    ensures ChangeIntervalColumn(k) !in InitialHeaders()
  {
    var c := ChangeIntervalColumn(k);
    assert c[0] == 'c' && c[1] == 'h';
    PrefixSplit(CHANGE_INTERVAL_PREFIX, k);
    FamiliesStartWithPrefix([]);
    LiteralColumnsHaveNoFamilyPrefix();
    assert InitialHeaders() == ["ticker"] + (DATA_COUNT_KEYS + ["alerts", "ai_summary", "ai_summary_supportive"] + TYPES_COLUMNS)
      + SentimentTypeColumns() + AssetColumns() + TRAILING_DATA_KEYS + MetricColumns() + [RAW_JSON];
    assert c !in DATA_COUNT_KEYS + ["alerts", "ai_summary", "ai_summary_supportive"] + TYPES_COLUMNS;
    assert c !in TRAILING_DATA_KEYS;
  }

  /** Every column of a prefixed family starts with the family's prefix. */
  lemma PrefixedHavePrefix(p: string, keys: seq<string>, cs: seq<string>)
    requires |cs| == |keys| && forall i :: 0 <= i < |cs| ==> cs[i] == p + keys[i]
    ensures forall x :: x in cs ==> HasPrefix(x, p)
  {
    forall x | x in cs ensures HasPrefix(x, p) {
      var i :| 0 <= i < |cs| && cs[i] == x;
      PrefixSplit(p, keys[i]);
    }
  }

  /** The columns of a fresh header named outright (not by a family prefix). */
  function LiteralHeaders(): seq<string> {
    ["ticker"] + DATA_COUNT_KEYS + ["alerts", "ai_summary", "ai_summary_supportive"] + TYPES_COLUMNS
  }

  /** No column named outright starts with a family prefix. */
  lemma LiteralHeaderHasNoFamilyPrefix(x: string)
    requires x in LiteralHeaders() + TRAILING_DATA_KEYS
    ensures NoFamilyPrefix(x)
  {
    LiteralColumnsHaveNoFamilyPrefix();
    PlainShapeHasNoFamilyPrefix("ticker");
    assert LiteralHeaders() + TRAILING_DATA_KEYS
      == ["ticker"] + DATA_COUNT_KEYS + ["alerts", "ai_summary", "ai_summary_supportive"] + TYPES_COLUMNS + TRAILING_DATA_KEYS;
    if x in DATA_COUNT_KEYS {
      var i :| 0 <= i < |DATA_COUNT_KEYS| && DATA_COUNT_KEYS[i] == x;
    } else if x in TYPES_COLUMNS {
      var i :| 0 <= i < |TYPES_COLUMNS| && TYPES_COLUMNS[i] == x;
    } else if x in TRAILING_DATA_KEYS {
      var i :| 0 <= i < |TRAILING_DATA_KEYS| && TRAILING_DATA_KEYS[i] == x;
    } else {
      assert x in ["ticker", "alerts", "ai_summary", "ai_summary_supportive"];
    }
  }

  /** The fourteen `data` counters are distinct. */
  lemma DataCountKeysNoDup()
    ensures NoDup(DATA_COUNT_KEYS)
  {
  }

  /** No column named outright before the families is a trailing `data` key. */
  lemma LiteralHeadersAvoidTrailing()
    ensures forall x :: x in LiteralHeaders() ==> x !in TRAILING_DATA_KEYS
  {
    assert forall x :: x in TRAILING_DATA_KEYS ==> x in ["interactions_24h", "interactions_24h_prev", "whatsup"];
  }

  /** The columns named outright are distinct. */
  lemma LiteralHeadersApart()
    ensures NoDup(LiteralHeaders()) && NoDup(TRAILING_DATA_KEYS)
    ensures forall x :: x in LiteralHeaders() ==> x !in TRAILING_DATA_KEYS
  {
    var summaries := ["alerts", "ai_summary", "ai_summary_supportive"];
    DataCountKeysNoDup();
    NoDupConcat(["ticker"], DATA_COUNT_KEYS);
    NoDupConcat(["ticker"] + DATA_COUNT_KEYS, summaries);
    NoDupConcat(["ticker"] + DATA_COUNT_KEYS + summaries, TYPES_COLUMNS);
    LiteralHeadersAvoidTrailing();
  }

  /**
   * Columns named outright and the sentiment-type, asset and metric-trend
   * families, each without repeats, join without repeats: a name from one
   * family starts with that family's prefix, and its first letter sets it
   * apart from the other families.
   */
  lemma FamiliesApart(lits: seq<string>, tr: seq<string>, sts: seq<string>, assets: seq<string>, metrics: seq<string>)
    requires NoDup(lits) && NoDup(tr) && NoDup(sts) && NoDup(assets) && NoDup(metrics)
    requires forall x :: x in lits ==> x !in tr
    requires forall x :: x in lits + tr ==> NoFamilyPrefix(x)
    requires forall x :: x in sts ==> HasPrefix(x, SENTIMENT_TYPE_PREFIX)
    requires forall x :: x in assets ==> HasPrefix(x, ASSET_PREFIX)
    requires forall x :: x in metrics ==> HasPrefix(x, METRIC_PREFIX)
    requires StartsWith(sts, 's') && StartsWith(assets, 'a') && StartsWith(metrics, 'm')
    ensures NoDup(lits + sts + assets + tr + metrics)
  {
    assert forall x :: x in lits ==> NoFamilyPrefix(x) by {
      forall x | x in lits ensures NoFamilyPrefix(x) { assert x in lits + tr; }
    }
    assert forall x :: x in tr ==> NoFamilyPrefix(x) by {
      forall x | x in tr ensures NoFamilyPrefix(x) { assert x in lits + tr; }
    }
    NoDupConcat(lits, sts);
    var h1 := lits + sts;
    assert forall x :: x in h1 ==> x !in assets;
    NoDupConcat(h1, assets);
    var h2 := h1 + assets;
    assert forall x :: x in h2 ==> x !in tr;
    NoDupConcat(h2, tr);
    var h3 := h2 + tr;
    assert forall x :: x in h3 ==> x !in metrics;
    NoDupConcat(h3, metrics);
  }

  /** The sentiment-type columns are distinct. */
  lemma SentimentTypeColumnsNoDup()
    ensures NoDup(SentimentTypeColumns())
  {
    assert NoDup(SENTIMENT_TYPE_KEYS);
    PrefixedNoDup(SENTIMENT_TYPE_PREFIX, SENTIMENT_TYPE_KEYS, SentimentTypeColumns());
  }

  /** The asset columns are distinct. */
  lemma AssetColumnsNoDup()
    ensures NoDup(AssetColumns())
  {
    assert NoDup(ASSET_FIELDS);
    PrefixedNoDup(ASSET_PREFIX, ASSET_FIELDS, AssetColumns());
  }

  /** The columns of a fresh header before `raw_json` are distinct. */
  lemma FreshColumnsNoDup()
    ensures NoDup(LiteralHeaders() + SentimentTypeColumns() + AssetColumns() + TRAILING_DATA_KEYS + MetricColumns())
  {
    LiteralHeadersApart();
    forall x | x in LiteralHeaders() + TRAILING_DATA_KEYS ensures NoFamilyPrefix(x) {
      LiteralHeaderHasNoFamilyPrefix(x);
    }
    FamiliesStartWithPrefix([]);
    SentimentTypeColumnsNoDup();
    AssetColumnsNoDup();
    MetricColumnsNoDup();
    PrefixedHavePrefix(SENTIMENT_TYPE_PREFIX, SENTIMENT_TYPE_KEYS, SentimentTypeColumns());
    PrefixedHavePrefix(ASSET_PREFIX, ASSET_FIELDS, AssetColumns());
    PrefixedHavePrefix(METRIC_PREFIX, METRIC_TRENDS_KEYS, MetricColumns());
    FamiliesApart(LiteralHeaders(), TRAILING_DATA_KEYS, SentimentTypeColumns(), AssetColumns(), MetricColumns());
  }

  /** Moving the first part of a concatenation into the left-nested grouping. */
  lemma RegroupConcat(x: seq<string>, a: seq<string>, b: seq<string>, c: seq<string>,
                      d: seq<string>, e: seq<string>, f: seq<string>)
    ensures x + (a + b + c + d + e + f) == x + a + b + c + d + e + f
  {
  }

  /** A fresh header row, cut at the family boundaries. */
  lemma InitialHeadersSplit()
    ensures InitialHeaders()
      == LiteralHeaders() + SentimentTypeColumns() + AssetColumns() + TRAILING_DATA_KEYS + MetricColumns() + [RAW_JSON]
  {
    RegroupConcat(["ticker"], DATA_COUNT_KEYS, ["alerts", "ai_summary", "ai_summary_supportive"], TYPES_COLUMNS,
                  SentimentTypeColumns(), AssetColumns(), TRAILING_DATA_KEYS);
  }

  /** A freshly created header row holds no column twice. */
  lemma InitialHeadersNoDup()
    ensures NoDup(InitialHeaders())
  {
    var h := LiteralHeaders() + SentimentTypeColumns() + AssetColumns() + TRAILING_DATA_KEYS + MetricColumns();
    FreshColumnsNoDup();
    assert RAW_JSON !in h by {
      FamiliesStartWithPrefix([]);
      assert RAW_JSON !in LiteralHeaders() && RAW_JSON !in TRAILING_DATA_KEYS;
    }
    NoDupConcat(h, [RAW_JSON]);
    InitialHeadersSplit();
  }

  /**
   * The change-interval key list outlives the header row: when row 3 is found
   * empty and the header is created afresh, a document whose change-interval
   * keys are all known already adds no column at all, so the columns of those
   * keys are missing from the header and their values are never written.
   */
  lemma RecreatedHeaderLacksKnownKeys(known: seq<string>, j: Json)
    requires forall k :: k in GatherChangeIntervalKeys(j) ==> k in known
    ensures GrowHeaders(InitialHeaders(), known, j) == InitialHeaders()
    ensures forall k :: ChangeIntervalColumn(k) !in GrowHeaders(InitialHeaders(), known, j)
    ensures known != [] ==> !Covers(GrowHeaders(InitialHeaders(), known, j), known)
  {
    var h := InitialHeaders();
    MissingEmptyIff(known, GatherChangeIntervalKeys(j));
    forall c | c in MetricColumns()
      ensures c in h
    {
      var i :| 0 <= i < |METRIC_TRENDS_KEYS| && MetricColumns()[i] == c;
      assert METRIC_TRENDS_KEYS[i] in METRIC_TRENDS_KEYS;
    }
    MissingEmptyIff(h, MetricColumns());
    assert h[|h| - 1] in h;
    forall k
      ensures ChangeIntervalColumn(k) !in h
    {
      InitialHeadersHaveNoChangeIntervalColumn(k);
    }
    if known != [] {
      assert known[0] in known;
    }
  }

  /**
   * The meaning of a row written for a fetched document: the ticker column
   * holds the ticker, `raw_json` stays blank, every column the flattener
   * fills holds the serialised value of its source (blank when too large),
   * and every other column is blank.
   */
  lemma WrittenCells(j: Json, keys: seq<string>, t: string, h: string)
    ensures h == "ticker" ==> UpdateCell(h, ValuesFor(j, keys, t)) == t
    ensures h == "ticker" ==> AppendCell(h, ValuesFor(j, keys, t)) == Fit(t)
    ensures h == RAW_JSON ==> UpdateCell(h, ValuesFor(j, keys, t)) == "" && AppendCell(h, ValuesFor(j, keys, t)) == ""
    ensures h != "ticker" && j.JObj? && IsValueColumn(h, keys) ==>
      UpdateCell(h, ValuesFor(j, keys, t)) == Fit(SafeStr(ColumnValue(j, h)))
      && AppendCell(h, ValuesFor(j, keys, t)) == Fit(SafeStr(ColumnValue(j, h)))
    ensures h != "ticker" && (!j.JObj? || !IsValueColumn(h, keys)) ==>
      UpdateCell(h, ValuesFor(j, keys, t)) == "" && AppendCell(h, ValuesFor(j, keys, t)) == ""
  {
    RawJsonIsNotFlat(keys);
  }

  // ---------------------------------------------------------------------------
  // The sheet

  class Sheet {
    /** The header row (row 3). */
    var header: seq<string>
    /** Column A from row 1 down. */
    var colA: seq<string>
    /** The data rows written so far, by row number, from column A on. */
    var rows: map<nat, seq<string>>

    ghost predicate Valid()
      reads this
    {
      RowsMatchColumnA(rows, colA)
    }

    /** A sheet with the given header row and column A, and no row written yet. */
    constructor (header0: seq<string>, colA0: seq<string>)
      ensures header == header0 && colA == colA0 && rows == map[]
      ensures Valid()
    {
      header := header0;
      colA := colA0;
      rows := map[];
    }

    /**
     * `append_new_headers`: appends the candidates the header lacks, in order,
     * and leaves the header alone (writing nothing) when none is missing. The
     * header row is never empty here, so its first cell, which column A also
     * holds, is not rewritten.
     */
    method AppendNewHeaders(candidates: seq<string>)
      requires header != []
      modifies this
      ensures header == AppendMissing(old(header), candidates)
      ensures colA == old(colA) && rows == old(rows)
    {
      var missing := Missing(header, candidates);
      if missing == [] {
        return;
      }
      header := header + missing;
    }

    /** Writes `row` into data row `r` from column A on. */
    method WriteRow(r: nat, row: seq<string>)
      requires Valid() && r >= DATA_START_ROW && row != []
      modifies this
      ensures Valid()
      ensures rows == old(rows)[r := Overlay(RowAt(old(rows), r), row)]
      ensures colA == SetCell(old(colA), r, row[0])
      ensures header == old(header)
      ensures forall k: nat :: k != r ==> RowAt(rows, k) == RowAt(old(rows), k) && CellA(colA, k) == CellA(old(colA), k)
    {
      rows := rows[r := Overlay(RowAt(rows, r), row)];
      colA := SetCell(colA, r, row[0]);
    }

    /** The header growth for one fetched document (v1.py:540-560). */
    method GrowHeader(keys: seq<string>, j: Json) returns (keysOut: seq<string>)
      requires header != []
      modifies this
      ensures keysOut == AccumulateKeys(keys, j)
      ensures header == GrowHeaders(old(header), keys, j)
      ensures colA == old(colA) && rows == old(rows)
    {
      var discovered := GatherChangeIntervalKeys(j);
      var toAdd := Missing(keys, discovered);
      keysOut := keys + toAdd;
      var neededMetrics := Missing(header, MetricColumns());
      if toAdd != [] {
        AppendNewHeaders(neededMetrics + ChangeIntervalColumns(toAdd));
      } else if neededMetrics != [] {
        AppendNewHeaders(neededMetrics);
      }
      if RAW_JSON !in header {
        AppendNewHeaders([RAW_JSON]);
      }
    }

    /**
     * A ticker whose document could not be fetched (v1.py:526-537): a minimal
     * row is appended unless the ticker already has a row.
     */
    method ProcessUnfetched(t: string) returns (target: nat)
      requires Valid()
      modifies this
      ensures Valid() && header == old(header)
      ensures target == Target(old(colA), t)
      ensures FirstMatch(ColValues(old(colA)), t, DATA_START_ROW).Some? ==> rows == old(rows) && colA == old(colA)
      ensures FirstMatch(ColValues(old(colA)), t, DATA_START_ROW).None? ==>
        && rows == old(rows)[target := Overlay(RowAt(old(rows), target), MinimalRow(t, |header|))]
        && colA == SetCell(old(colA), target, t)
      ensures Strip(t) != "" ==> FirstMatch(ColValues(colA), t, DATA_START_ROW) == Some(target)
      ensures KeepsListed(old(colA), colA)
      ensures forall r: nat :: r != target ==> RowAt(rows, r) == RowAt(old(rows), r) && CellA(colA, r) == CellA(old(colA), r)
    {
      target := Target(colA, t);
      var found := FindRowForTicker(ColValues(colA), t, DATA_START_ROW);
      if found.None? {
        WriteRow(target, MinimalRow(t, |header|));
        if Strip(t) != "" {
          FoundAtTargetAfterWrite(old(colA), t, t);
        }
        forall u | Strip(u) != "" && Listed(old(colA), u)
          ensures Listed(colA, u)
        {
          ListedSurvivesWrite(old(colA), t, t, u);
        }
      }
    }

    /**
     * A fetched document (v1.py:539-592): the header grows, the values are
     * flattened, and the ticker's row is overwritten in place or appended.
     */
    method ProcessDocument(t: string, j: Json, keys: seq<string>) returns (keysOut: seq<string>, target: nat)
      requires Valid() && header != []
      modifies this
      ensures Valid() && header != [] && header[0] == old(header)[0]
      ensures target == Target(old(colA), t)
      ensures keysOut == AccumulateKeys(keys, j)
      ensures header == GrowHeaders(old(header), keys, j)
      ensures var found := FirstMatch(ColValues(old(colA)), t, DATA_START_ROW).Some?;
        var values := ValuesFor(j, keysOut, t);
        var row := if found then UpdateRow(header, values) else AppendRow(header, values);
        && rows == old(rows)[target := Overlay(RowAt(old(rows), target), row)]
        && colA == SetCell(old(colA), target, row[0])
      ensures Strip(t) != "" && header[0] == "ticker" && |t| <= MAX_CELL_LENGTH ==>
        FirstMatch(ColValues(colA), t, DATA_START_ROW) == Some(target)
      ensures header[0] == "ticker" && |t| <= MAX_CELL_LENGTH ==>
        KeepsListed(old(colA), colA)
      ensures forall r: nat :: r != target ==> RowAt(rows, r) == RowAt(old(rows), r) && CellA(colA, r) == CellA(old(colA), r)
    {
      keysOut := GrowHeader(keys, j);
      GrowHeadersSpec(old(header), keys, j);
      assert header[..|old(header)|] == old(header);
      target := WriteDocumentRow(t, j, keysOut);
    }

    /** The values of a fetched document written to the ticker's row (v1.py:562-592). */
    method WriteDocumentRow(t: string, j: Json, keys: seq<string>) returns (target: nat)
      requires Valid() && header != []
      modifies this
      ensures Valid() && header == old(header)
      ensures target == Target(old(colA), t)
      ensures var found := FirstMatch(ColValues(old(colA)), t, DATA_START_ROW).Some?;
        var values := ValuesFor(j, keys, t);
        var row := if found then UpdateRow(header, values) else AppendRow(header, values);
        && rows == old(rows)[target := Overlay(RowAt(old(rows), target), row)]
        && colA == SetCell(old(colA), target, row[0])
      ensures Strip(t) != "" && header[0] == "ticker" && |t| <= MAX_CELL_LENGTH ==>
        FirstMatch(ColValues(colA), t, DATA_START_ROW) == Some(target)
      ensures header[0] == "ticker" && |t| <= MAX_CELL_LENGTH ==>
        KeepsListed(old(colA), colA)
      ensures forall r: nat :: r != target ==> RowAt(rows, r) == RowAt(old(rows), r) && CellA(colA, r) == CellA(old(colA), r)
    {
      target := Target(colA, t);
      var values := ValuesMapFor(j, keys, t);
      var found := FindRowForTicker(ColValues(colA), t, DATA_START_ROW);
      var row: seq<string>;
      if found.Some? {
        row := BuildUpdateRow(header, values);
      } else {
        row := BuildAppendRow(header, values);
      }
      WriteRow(target, row);
      if header[0] == "ticker" && |t| <= MAX_CELL_LENGTH {
        WrittenCells(j, keys, t, "ticker");
        assert row[0] == t;
        if Strip(t) != "" {
          FoundAtTargetAfterWrite(old(colA), t, row[0]);
        }
        forall u | Strip(u) != "" && Listed(old(colA), u)
          ensures Listed(colA, u)
        {
          ListedSurvivesWrite(old(colA), t, t, u);
        }
      }
    }

    /** The body of the per-ticker loop of the main run (v1.py:523-592). */
    method ProcessTicker(t: string, doc: Option<Json>, keys: seq<string>) returns (keysOut: seq<string>, target: nat)
      requires Valid() && header != []
      modifies this
      ensures Valid() && header != [] && header[0] == old(header)[0]
      ensures target == Target(old(colA), t)
      ensures !Fetched(doc) ==> keysOut == keys && header == old(header)
      ensures Fetched(doc) ==> keysOut == AccumulateKeys(keys, doc.value) && header == GrowHeaders(old(header), keys, doc.value)
      ensures !Fetched(doc) && FirstMatch(ColValues(old(colA)), t, DATA_START_ROW).Some? ==>
        rows == old(rows) && colA == old(colA)
      ensures !Fetched(doc) && FirstMatch(ColValues(old(colA)), t, DATA_START_ROW).None? ==>
        && rows == old(rows)[target := Overlay(RowAt(old(rows), target), MinimalRow(t, |header|))]
        && colA == SetCell(old(colA), target, t)
      ensures Fetched(doc) ==>
        var found := FirstMatch(ColValues(old(colA)), t, DATA_START_ROW).Some?;
        var values := ValuesFor(doc.value, keysOut, t);
        var row := if found then UpdateRow(header, values) else AppendRow(header, values);
        && rows == old(rows)[target := Overlay(RowAt(old(rows), target), row)]
        && colA == SetCell(old(colA), target, row[0])
      ensures forall r: nat :: r != target ==> RowAt(rows, r) == RowAt(old(rows), r) && CellA(colA, r) == CellA(old(colA), r)
      ensures |keys| <= |keysOut| && keysOut[..|keys|] == keys
      ensures Strip(t) != "" && header[0] == "ticker" && |t| <= MAX_CELL_LENGTH ==>
        FirstMatch(ColValues(colA), t, DATA_START_ROW) == Some(target)
      ensures header[0] == "ticker" && |t| <= MAX_CELL_LENGTH ==> KeepsListed(old(colA), colA)
      ensures |old(header)| <= |header| && header[..|old(header)|] == old(header)
      ensures Covers(old(header), keys) ==> Covers(header, keysOut)
      ensures (doc.Some? ==> DistinctKeys(doc.value)) && NoDup(old(header)) ==> NoDup(header)
      ensures (doc.Some? ==> DistinctKeys(doc.value)) && NoDup(keys) ==> NoDup(keysOut)
      ensures forall k: nat :: k < DATA_START_ROW ==> CellA(colA, k) == CellA(old(colA), k)
    {
      if !Fetched(doc) {
        keysOut := keys;
        target := ProcessUnfetched(t);
      } else {
        GrowHeadersSpec(header, keys, doc.value);
        if DistinctKeys(doc.value) {
          GatherChangeIntervalKeysNoDup(doc.value);
          if NoDup(header) {
            GrowHeadersNoDup(header, keys, doc.value);
          }
          if NoDup(keys) {
            AccumulateKeysNoDup(keys, doc.value);
          }
        }
        keysOut, target := ProcessDocument(t, doc.value, keys);
      }
    }

    /**
     * One run of the updater (v1.py:458-609) once the token has been captured
     * and both worksheets opened: the token is written to A2, the ticker list
     * is read, the header row is created or completed with `raw_json`, and every
     * ticker is upserted in turn. `fetch` stands for the API call for one
     * ticker; `keys` is the change-interval key list carried over from earlier
     * runs, and the extended list is returned.
     */
    method RunOnce(token: Option<string>, tickerColumn: seq<string>, fetch: string -> Option<Json>, keys: seq<string>)
      returns (keysOut: seq<string>)
      requires Valid()
      modifies this
      ensures Valid()
      ensures |keys| <= |keysOut| && keysOut[..|keys|] == keys
      ensures !HasToken(token) ==> keysOut == keys && header == old(header) && colA == old(colA) && rows == old(rows)
      ensures HasToken(token) ==> CellA(colA, 2) == token.value
      ensures HasToken(token) && CleanTickers(tickerColumn) == [] ==>
        keysOut == keys && header == old(header) && rows == old(rows) && colA == SetCell(old(colA), 2, token.value)
      ensures Proceeds(token, tickerColumn) ==> header != [] && RAW_JSON in header
      ensures Proceeds(token, tickerColumn) && old(header) == [] ==>
        |InitialHeaders()| <= |header| && header[..|InitialHeaders()|] == InitialHeaders()
      ensures Proceeds(token, tickerColumn) && old(header) != [] ==>
        |old(header)| <= |header| && header[..|old(header)|] == old(header)
      ensures Covers(old(header), keys) ==> Covers(header, keysOut)
      ensures Proceeds(token, tickerColumn) && header[0] == "ticker" && AllFit(CleanTickers(tickerColumn)) ==>
        forall u :: u in CleanTickers(tickerColumn) ==> Listed(colA, u)
      ensures header != [] && header[0] == "ticker" && AllFit(CleanTickers(tickerColumn)) ==>
        KeepsListed(old(colA), colA)
      ensures HasToken(token) ==> forall u :: u in CleanTickers(tickerColumn) && Fetched(fetch(u)) ==>
        forall k :: k in GatherChangeIntervalKeys(fetch(u).value) ==> k in keysOut
      ensures ParsedDocuments(fetch) && NoDup(old(header)) ==> NoDup(header)
      ensures ParsedDocuments(fetch) && NoDup(keys) ==> NoDup(keysOut)
      ensures forall r: nat :: Unlisted(old(colA), CleanTickers(tickerColumn), r) ==>
        RowAt(rows, r) == RowAt(old(rows), r) && CellA(colA, r) == CellA(old(colA), r)
    {
      keysOut := keys;
      if !HasToken(token) {
        return;
      }
      WriteToken(token.value);
      var tickers := CleanTickers(tickerColumn);
      forall r: nat | Unlisted(old(colA), tickers, r)
        ensures Unlisted(colA, tickers, r)
      {
        UnlistedKept(old(colA), colA, tickers, r);
      }
      if tickers == [] {
        return;
      }
      keysOut := RunTickers(tickers, fetch, keys);
    }

    /** The part of a run after the ticker list was read and found non-empty (v1.py:500-592). */
    method RunTickers(tickers: seq<string>, fetch: string -> Option<Json>, keys: seq<string>)
      returns (keysOut: seq<string>)
      requires Valid()
      requires forall m :: 0 <= m < |tickers| ==> Strip(tickers[m]) != ""
      modifies this
      ensures Valid()
      ensures |keys| <= |keysOut| && keysOut[..|keys|] == keys
      ensures CellA(colA, 2) == CellA(old(colA), 2)
      ensures header != [] && RAW_JSON in header
      ensures old(header) == [] ==> |InitialHeaders()| <= |header| && header[..|InitialHeaders()|] == InitialHeaders()
      ensures old(header) != [] ==> |old(header)| <= |header| && header[..|old(header)|] == old(header)
      ensures Covers(old(header), keys) ==> Covers(header, keysOut)
      ensures header[0] == "ticker" && AllFit(tickers) ==>
        (forall u :: u in tickers ==> Listed(colA, u)) && KeepsListed(old(colA), colA)
      ensures forall u :: u in tickers && Fetched(fetch(u)) ==>
        forall k :: k in GatherChangeIntervalKeys(fetch(u).value) ==> k in keysOut
      ensures ParsedDocuments(fetch) && NoDup(old(header)) ==> NoDup(header)
      ensures ParsedDocuments(fetch) && NoDup(keys) ==> NoDup(keysOut)
      ensures forall r: nat :: Unlisted(old(colA), tickers, r) ==>
        RowAt(rows, r) == RowAt(old(rows), r) && CellA(colA, r) == CellA(old(colA), r)
    {
      PrepareHeader();
      ghost var mid := header;
      ghost var midA := colA;
      keysOut := ProcessAll(tickers, fetch, keys);
      forall r: nat | Unlisted(old(colA), tickers, r)
        ensures RowAt(rows, r) == RowAt(old(rows), r) && CellA(colA, r) == CellA(old(colA), r)
      {
        UnlistedKept(old(colA), midA, tickers, r);
      }
      MemberOfPrefix(mid, header, RAW_JSON);
      if old(header) == [] {
        PrefixOfPrefix(InitialHeaders(), mid, header);
      } else {
        PrefixOfPrefix(old(header), mid, header);
      }
    }

    /** The token written to A2 (v1.py:484-490). */
    method WriteToken(v: string)
      requires Valid()
      modifies this
      ensures Valid() && header == old(header) && rows == old(rows)
      ensures colA == SetCell(old(colA), 2, v)
      ensures forall u :: Listed(colA, u) <==> Listed(old(colA), u)
    {
      colA := SetCell(colA, 2, v);
      LowWriteKeepsData(old(colA), 2, v);
    }

    /**
     * The header row before the loop (v1.py:500-520): the initial header when
     * row 3 is empty, otherwise the existing header with `raw_json` added when
     * it lacks it.
     */
    method PrepareHeader()
      requires Valid()
      modifies this
      ensures Valid() && rows == old(rows)
      ensures header != [] && RAW_JSON in header
      ensures old(header) == [] ==> header == InitialHeaders() && colA == SetCell(old(colA), 3, header[0])
      ensures old(header) != [] ==> header == AppendMissing(old(header), [RAW_JSON]) && colA == old(colA)
      ensures Covers(old(header), []) ==> header == old(header)
      ensures NoDup(old(header)) ==> NoDup(header)
      ensures forall u :: Listed(colA, u) <==> Listed(old(colA), u)
      ensures CellA(colA, 2) == CellA(old(colA), 2)
      ensures forall r: nat :: r >= DATA_START_ROW ==> CellA(colA, r) == CellA(old(colA), r)
    {
      if header == [] {
        InitialHeadersNoDup();
        header := InitialHeaders();
        colA := SetCell(colA, 3, header[0]);
        LowWriteKeepsData(old(colA), 3, header[0]);
      } else {
        if NoDup(header) {
          AppendMissingNoDup(header, [RAW_JSON]);
        }
        AppendNewHeaders([RAW_JSON]);
      }
    }

    /** The per-ticker loop of the main run (v1.py:523-592), in list order. */
    method ProcessAll(tickers: seq<string>, fetch: string -> Option<Json>, keys: seq<string>)
      returns (keysOut: seq<string>)
      requires Valid() && header != [] && RAW_JSON in header
      requires forall m :: 0 <= m < |tickers| ==> Strip(tickers[m]) != ""
      modifies this
      ensures Valid() && header != [] && header[0] == old(header)[0] && RAW_JSON in header
      ensures |old(header)| <= |header| && header[..|old(header)|] == old(header)
      ensures |keys| <= |keysOut| && keysOut[..|keys|] == keys
      ensures Covers(old(header), keys) ==> Covers(header, keysOut)
      ensures CellA(colA, 2) == CellA(old(colA), 2)
      ensures header[0] == "ticker" && AllFit(tickers) ==>
        (forall u :: u in tickers ==> Listed(colA, u))
        && KeepsListed(old(colA), colA)
      ensures forall u :: u in tickers && Fetched(fetch(u)) ==>
        forall k :: k in GatherChangeIntervalKeys(fetch(u).value) ==> k in keysOut
      ensures ParsedDocuments(fetch) && NoDup(old(header)) ==> NoDup(header)
      ensures ParsedDocuments(fetch) && NoDup(keys) ==> NoDup(keysOut)
      ensures forall r: nat :: Unlisted(old(colA), tickers, r) ==>
        RowAt(rows, r) == RowAt(old(rows), r) && CellA(colA, r) == CellA(old(colA), r)
    {
      keysOut := keys;
      var i := 0;
      while i < |tickers|
        invariant 0 <= i <= |tickers|
        invariant Valid() && header != [] && header[0] == old(header)[0]
        invariant |old(header)| <= |header| && header[..|old(header)|] == old(header)
        invariant RAW_JSON in header
        invariant |keys| <= |keysOut| && keysOut[..|keys|] == keys
        invariant Covers(old(header), keys) ==> Covers(header, keysOut)
        invariant CellA(colA, 2) == CellA(old(colA), 2)
        invariant header[0] == "ticker" && AllFit(tickers) ==> ListedSoFar(colA, old(colA), tickers, i)
        invariant KeysSeen(tickers, i, fetch, keysOut)
        invariant ParsedDocuments(fetch) && NoDup(old(header)) ==> NoDup(header)
        invariant ParsedDocuments(fetch) && NoDup(keys) ==> NoDup(keysOut)
        invariant KeepsUnlisted(old(colA), old(rows), tickers, colA, rows)
      {
        keysOut := Step(tickers, i, fetch, keys, keysOut, old(header), old(colA), old(rows));
        i := i + 1;
      }
      assert forall u :: u in tickers ==> exists m :: 0 <= m < |tickers| && tickers[m] == u;
    }

    /** One pass of the per-ticker loop: ticker `i` is upserted and the loop's invariants carry over. */
    method Step(tickers: seq<string>, i: nat, fetch: string -> Option<Json>, keys: seq<string>, keysIn: seq<string>,
                ghost h: seq<string>, ghost c: seq<string>, ghost rs: map<nat, seq<string>>)
      returns (keysOut: seq<string>)
      requires i < |tickers| && forall m :: 0 <= m < |tickers| ==> Strip(tickers[m]) != ""
      requires Valid() && header != [] && RAW_JSON in header
      requires |h| <= |header| && header[..|h|] == h
      requires |keys| <= |keysIn| && keysIn[..|keys|] == keys
      requires KeysSeen(tickers, i, fetch, keysIn)
      modifies this
      ensures Valid() && header != [] && header[0] == old(header)[0] && RAW_JSON in header
      ensures |h| <= |header| && header[..|h|] == h
      ensures |keys| <= |keysOut| && keysOut[..|keys|] == keys
      ensures Covers(old(header), keysIn) ==> Covers(header, keysOut)
      ensures CellA(colA, 2) == CellA(old(colA), 2)
      ensures header[0] == "ticker" && AllFit(tickers) && ListedSoFar(old(colA), c, tickers, i) ==>
        ListedSoFar(colA, c, tickers, i + 1)
      ensures KeysSeen(tickers, i + 1, fetch, keysOut)
      ensures ParsedDocuments(fetch) && NoDup(old(header)) ==> NoDup(header)
      ensures ParsedDocuments(fetch) && NoDup(keysIn) ==> NoDup(keysOut)
      ensures KeepsUnlisted(c, rs, tickers, old(colA), old(rows)) ==> KeepsUnlisted(c, rs, tickers, colA, rows)
    {
      var t := tickers[i];
      var target;
      keysOut, target := ProcessTicker(t, fetch(t), keysIn);
      PrefixOfPrefix(h, old(header), header);
      PrefixOfPrefix(keys, keysIn, keysOut);
      MemberOfPrefix(old(header), header, RAW_JSON);
      KeysSeenStep(tickers, i, fetch, keysIn, keysOut);
      if header[0] == "ticker" && AllFit(tickers) && ListedSoFar(old(colA), c, tickers, i) {
        assert t in tickers;
        ListedWhenFound(colA, t, target);
        ListedSoFarStep(old(colA), colA, c, tickers, i);
      }
      if KeepsUnlisted(c, rs, tickers, old(colA), old(rows)) {
        WriteKeepsUnlisted(c, rs, tickers, i, old(colA), old(rows), colA, rows);
      }
    }
  }

  /**
   * Every document the fetch yields binds each key once, as the dicts
   * `resp.json()` builds do; the header and key lists stay without repeats
   * under this condition.
   */
  ghost predicate ParsedDocuments(fetch: string -> Option<Json>) {
    forall u :: fetch(u).Some? ==> DistinctKeys(fetch(u).value)
  }

  /** `if not token`: a run goes ahead only with a captured, non-empty token. */
  predicate HasToken(token: Option<string>) {
    token.Some? && token.value != ""
  }

  /** The run reaches the per-ticker loop: a token was captured and the ticker list is not empty. */
  predicate Proceeds(token: Option<string>, tickerColumn: seq<string>) {
    HasToken(token) && CleanTickers(tickerColumn) != []
  }

  /** Every non-blank ticker listed in `before` is still listed in `after`. */
  ghost predicate KeepsListed(before: seq<string>, after: seq<string>) {
    forall u :: Strip(u) != "" && Listed(before, u) ==> Listed(after, u)
  }

  /** The first `i` tickers have data rows, and so has every ticker listed in `start`. */
  ghost predicate ListedSoFar(col: seq<string>, start: seq<string>, tickers: seq<string>, i: nat) {
    && (forall m :: 0 <= m < i && m < |tickers| ==> Listed(col, tickers[m]))
    && KeepsListed(start, col)
  }

  lemma ListedSoFarStep(c0: seq<string>, c1: seq<string>, start: seq<string>, tickers: seq<string>, i: nat)
    requires i < |tickers| && forall m :: 0 <= m < |tickers| ==> Strip(tickers[m]) != ""
    requires ListedSoFar(c0, start, tickers, i) && KeepsListed(c0, c1) && Listed(c1, tickers[i])
    ensures ListedSoFar(c1, start, tickers, i + 1)
  {
    forall m | 0 <= m < i + 1 && m < |tickers|
      ensures Listed(c1, tickers[m])
    {
      if m < i {
        assert Strip(tickers[m]) != "" && Listed(c0, tickers[m]);
      }
    }
  }

  /** Every change-interval key of the first `i` fetched documents is in `keys`. */
  predicate KeysSeen(tickers: seq<string>, i: nat, fetch: string -> Option<Json>, keys: seq<string>) {
    forall m, k :: 0 <= m < i && m < |tickers| && Fetched(fetch(tickers[m])) && k in GatherChangeIntervalKeys(fetch(tickers[m]).value) ==> k in keys
  }

  lemma KeysSeenStep(tickers: seq<string>, i: nat, fetch: string -> Option<Json>, keysIn: seq<string>, keysOut: seq<string>)
    requires i < |tickers| && KeysSeen(tickers, i, fetch, keysIn)
    requires |keysIn| <= |keysOut| && keysOut[..|keysIn|] == keysIn
    requires Fetched(fetch(tickers[i])) ==> keysOut == AccumulateKeys(keysIn, fetch(tickers[i]).value)
    ensures KeysSeen(tickers, i + 1, fetch, keysOut)
  {
    forall m, k | 0 <= m < i + 1 && m < |tickers| && Fetched(fetch(tickers[m])) && k in GatherChangeIntervalKeys(fetch(tickers[m]).value)
      ensures k in keysOut
    {
      if m < i {
        MemberOfPrefix(keysIn, keysOut, k);
      }
    }
  }

  /** Every ticker fits in a cell. */
  predicate AllFit(tickers: seq<string>) {
    forall x :: x in tickers ==> |x| <= MAX_CELL_LENGTH
  }

  lemma PrefixOfPrefix(a: seq<string>, b: seq<string>, c: seq<string>)
    requires |a| <= |b| && b[..|a|] == a
    requires |b| <= |c| && c[..|b|] == b
    ensures |a| <= |c| && c[..|a|] == a
  {
    assert c[..|a|] == c[..|b|][..|a|];
  }

  lemma MemberOfPrefix(a: seq<string>, b: seq<string>, x: string)
    requires |a| <= |b| && b[..|a|] == a && x in a
    ensures x in b
  {
    var k :| 0 <= k < |a| && a[k] == x;
    assert b[k] == a[k];
  }

  /** A ticker the search finds has a data row. */
  lemma ListedWhenFound(col: seq<string>, t: string, r: nat)
    requires FirstMatch(ColValues(col), t, DATA_START_ROW) == Some(r)
    ensures Listed(col, t)
  {
    FirstMatchSpec(ColValues(col), t, DATA_START_ROW);
    ColValuesSpec(col);
    assert col[r - 1] == ColValues(col)[r - 1];
    assert HoldsTicker(col, t, r);
  }

  /**
   * Writing above the data rows (the token in A2, the header in A3) changes
   * neither which tickers are listed nor how the written rows line up with
   * column A.
   */
  lemma LowWriteKeepsData(col: seq<string>, row: nat, v: string)
    requires 1 <= row < DATA_START_ROW
    ensures forall u :: Listed(SetCell(col, row, v), u) <==> Listed(col, u)
    ensures forall rows :: RowsMatchColumnA(rows, col) ==> RowsMatchColumnA(rows, SetCell(col, row, v))
  {
    var col' := SetCell(col, row, v);
    forall u
      ensures Listed(col', u) <==> Listed(col, u)
    {
      if Listed(col, u) {
        var k :| k >= DATA_START_ROW && HoldsTicker(col, u, k);
        assert CellA(col', k) == CellA(col, k);
        assert HoldsTicker(col', u, k);
      }
      if Listed(col', u) {
        var k :| k >= DATA_START_ROW && HoldsTicker(col', u, k);
        assert CellA(col', k) == CellA(col, k);
        assert HoldsTicker(col, u, k);
      }
    }
  }

  /** The values map of a fetched document with the ticker added (v1.py:562-567). */
  method ValuesMapFor(j: Json, keys: seq<string>, t: string) returns (values: ValuesMap)
    ensures values == ValuesFor(j, keys, t)
  {
    var built := BuildValuesMap(j, keys);
    values := if built.Some? then built.value else map[];
    values := values["ticker" := JStr(t)];
  }
}
