/**
 * Cell serialisation and row projection: how a values map becomes the cells
 * of one sheet row, in header order (`is_too_large`, the loop of
 * `write_row_by_header_order`, and the row built on the append path).
 */
module Cells {
  import opened JsonValue

  /** `MAX_CELL_LENGTH`: a cell longer than this is written blank. */
  const MAX_CELL_LENGTH: nat := 50000

  /** `is_too_large`. */
  predicate IsTooLarge(s: string) {
    |s| > MAX_CELL_LENGTH
  }

  /** A cell's text after the size check: blank when too large, unchanged otherwise. */
  function Fit(s: string): (r: string)
    ensures |r| <= MAX_CELL_LENGTH
    ensures r == s <==> !IsTooLarge(s) || s == ""
    ensures r != s ==> r == ""
  {
    if IsTooLarge(s) then "" else s
  }

  /** The values map of one ticker: column name to raw value. */
  type ValuesMap = map<string, Json>

  /** `values_map.get(h, "")`. */
  function ValueOf(values: ValuesMap, h: string): Json {
    if h in values then values[h] else JStr("")
  }

  /**
   * One cell of a row written in place: the ticker column is the ticker value
   * itself, with no size check; every other column is the serialised value,
   * blanked when too large.
   */
  function UpdateCell(h: string, values: ValuesMap): (cell: string)
    ensures h !in values ==> cell == ""
    ensures h != "ticker" ==> |cell| <= MAX_CELL_LENGTH
  {
    if h == "ticker" then SafeStr(ValueOf(values, "ticker"))
    else Fit(SafeStr(ValueOf(values, h)))
  }

  /** One cell of an appended row: every column, the ticker's too, is serialised and size-checked. */
  function AppendCell(h: string, values: ValuesMap): (cell: string)
    ensures h !in values ==> cell == ""
    ensures |cell| <= MAX_CELL_LENGTH
    ensures cell == "" || cell == SafeStr(values[h])
  {
    Fit(SafeStr(ValueOf(values, h)))
  }

  /** The row `write_row_by_header_order` writes: one cell per header, in header order. */
  function UpdateRow(headers: seq<string>, values: ValuesMap): seq<string> {
    seq(|headers|, i requires 0 <= i < |headers| => UpdateCell(headers[i], values))
  }

  /** The row the append path writes: one cell per header, in header order. */
  function AppendRow(headers: seq<string>, values: ValuesMap): seq<string> {
    seq(|headers|, i requires 0 <= i < |headers| => AppendCell(headers[i], values))
  }

  /**
   * `write_row_by_header_order`: one cell per header, in header order.
   */
  method BuildUpdateRow(headers: seq<string>, values: ValuesMap) returns (row: seq<string>)
    ensures row == UpdateRow(headers, values)
    ensures |row| == |headers|
    ensures forall i :: 0 <= i < |headers| ==> row[i] == UpdateCell(headers[i], values)
  {
    row := [];
    for i := 0 to |headers|
      invariant |row| == i
      invariant forall k :: 0 <= k < i ==> row[k] == UpdateCell(headers[k], values)
    {
      var h := headers[i];
      if h == "ticker" {
        row := row + [SafeStr(ValueOf(values, "ticker"))];
        continue;
      }
      var s := SafeStr(ValueOf(values, h));
      if IsTooLarge(s) {
        row := row + [""];
      } else {
        row := row + [s];
      }
    }
  }

  /** The row built on the append path (v1.py:581-588): no special case for the ticker. */
  method BuildAppendRow(headers: seq<string>, values: ValuesMap) returns (row: seq<string>)
    ensures row == AppendRow(headers, values)
    ensures |row| == |headers|
    ensures forall i :: 0 <= i < |headers| ==> row[i] == AppendCell(headers[i], values)
  {
    row := [];
    for i := 0 to |headers|
      invariant |row| == i
      invariant forall k :: 0 <= k < i ==> row[k] == AppendCell(headers[k], values)
    {
      var s := SafeStr(ValueOf(values, headers[i]));
      if IsTooLarge(s) {
        s := "";
      }
      row := row + [s];
    }
  }

  /**
   * The row written for a ticker whose document could not be fetched:
   * the ticker, then one blank per remaining header (`[t] + [""] * (n - 1)`).
   */
  function MinimalRow(t: string, n: nat): (row: seq<string>)
    ensures |row| == if n == 0 then 1 else n
    ensures row[0] == t
    ensures forall i :: 1 <= i < |row| ==> row[i] == ""
  {
    [t] + seq(if n == 0 then 0 else n - 1, _ => "")
  }

  /**
   * Oversize handling is per cell: a missing value writes a blank cell, a
   * value whose text is too large blanks its own cell in every column but the
   * ticker's, and a value that fits is written as its text.
   */
  lemma UpdateCellCases(h: string, values: ValuesMap)
    ensures h !in values ==> UpdateCell(h, values) == ""
    ensures h != "ticker" ==> |UpdateCell(h, values)| <= MAX_CELL_LENGTH
    ensures h != "ticker" && h in values && IsTooLarge(SafeStr(values[h])) ==> UpdateCell(h, values) == ""
    ensures h in values && !IsTooLarge(SafeStr(values[h])) ==> UpdateCell(h, values) == SafeStr(values[h])
    ensures h == "ticker" ==> UpdateCell(h, values) == SafeStr(ValueOf(values, h))
  {
  }

  /**
   * Replacing the value of one column by an oversized one blanks that column's
   * cells (outside the ticker column) and leaves every other cell of the row
   * as it was.
   */
  lemma OversizedValueBlanksOnlyItsCell(headers: seq<string>, values: ValuesMap, k: string, big: Json, i: nat)
    requires IsTooLarge(SafeStr(big)) && k != "ticker"
    requires i < |headers|
    ensures headers[i] == k ==> UpdateCell(headers[i], values[k := big]) == ""
    ensures headers[i] != k ==> UpdateCell(headers[i], values[k := big]) == UpdateCell(headers[i], values)
    ensures headers[i] == k ==> AppendCell(headers[i], values[k := big]) == ""
    ensures headers[i] != k ==> AppendCell(headers[i], values[k := big]) == AppendCell(headers[i], values)
  {
    if headers[i] != k && headers[i] != "ticker" {
      assert ValueOf(values[k := big], headers[i]) == ValueOf(values, headers[i]);
    }
  }
}
