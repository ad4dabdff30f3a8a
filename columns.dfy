/**
 * Spreadsheet column letters: `number_to_column` turns a 1-based column
 * number into its bijective base-26 numeral (1 is "A", 26 is "Z", 27 is "AA").
 */
module Columns {
  import opened Wrappers

  /** A column label: upper-case ASCII letters only. */
  predicate IsLetters(s: string) {
    forall i :: 0 <= i < |s| ==> 'A' <= s[i] <= 'Z'
  }

  /** The value of a bijective base-26 numeral, 'A' standing for 1 and 'Z' for 26. */
  function ColumnNumber(s: string): nat
    requires IsLetters(s)
  {
    if s == [] then 0
    else 26 * ColumnNumber(s[..|s| - 1]) + (s[|s| - 1] as int - 'A' as int + 1)
  }

  /** The bijective base-26 numeral of `n`; the empty label for 0. */
  function ColumnName(n: nat): string {
    if n == 0 then ""
    else ColumnName((n - 1) / 26) + [(('A' as int) + (n - 1) % 26) as char]
  }

  function Reverse(s: string): (r: string)
    ensures |r| == |s|
  {
    if s == [] then [] else [s[|s| - 1]] + Reverse(s[..|s| - 1])
  }

  lemma {:induction false} ColumnNameIsLetters(n: nat)
    ensures IsLetters(ColumnName(n))
    ensures n >= 1 <==> ColumnName(n) != ""
  {
    if n > 0 {
      ColumnNameIsLetters((n - 1) / 26);
    }
  }

  /** Decoding the label of `n` gives `n` back. */
  lemma {:induction false} ColumnNumberOfName(n: nat)
    ensures IsLetters(ColumnName(n))
    ensures ColumnNumber(ColumnName(n)) == n
  {
    ColumnNameIsLetters(n);
    if n > 0 {
      var q := (n - 1) / 26;
      var s := ColumnName(n);
      ColumnNumberOfName(q);
      assert s[..|s| - 1] == ColumnName(q);
    }
  }

  /** Every label is the label of its own number: the encoding is onto the labels. */
  lemma {:induction false} ColumnNameOfNumber(s: string)
    requires IsLetters(s)
    ensures ColumnName(ColumnNumber(s)) == s
  {
    if s != [] {
      var init := s[..|s| - 1];
      var d := s[|s| - 1] as int - 'A' as int;
      ColumnNameOfNumber(init);
      var n := ColumnNumber(s);
      assert n - 1 == 26 * ColumnNumber(init) + d;
      assert (n - 1) / 26 == ColumnNumber(init);
      assert (n - 1) % 26 == d;
      assert s == init + [s[|s| - 1]];
    }
  }

  /** Two column numbers share a label only when they are equal. */
  lemma ColumnNameInjective(m: nat, n: nat)
    requires ColumnName(m) == ColumnName(n)
    ensures m == n
  {
    ColumnNumberOfName(m);
    ColumnNumberOfName(n);
  }

  /**
   * `number_to_column`: raises for a number below 1 (None here); otherwise
   * collects the base-26 digits least significant first and reverses them.
   */
  method NumberToColumn(n: int) returns (r: Option<string>)
    ensures n < 1 <==> r.None?
    ensures r.Some? ==> r.value != "" && IsLetters(r.value) && ColumnNumber(r.value) == n
    ensures r.Some? ==> r.value == ColumnName(n)
  {
    if n < 1 {
      return None;
    }
    var m := n;
    var letters: string := [];
    while m != 0
      invariant 0 <= m <= n
      invariant ColumnName(m) + Reverse(letters) == ColumnName(n)
      decreases m
    {
      var q, rem := (m - 1) / 26, (m - 1) % 26;
      var c := (('A' as int) + rem) as char;
      assert ColumnName(m) == ColumnName(q) + [c];
      assert Reverse(letters + [c]) == [c] + Reverse(letters) by {
        assert (letters + [c])[..|letters|] == letters;
      }
      m := q;
      letters := letters + [c];
    }
    assert Reverse(letters) == ColumnName(n) by {
      assert ColumnName(m) == "";
    }
    ColumnNumberOfName(n);
    ColumnNameIsLetters(n);
    r := Some(Reverse(letters));
  }
}
