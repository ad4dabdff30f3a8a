/**
 * Row targeting: the ASCII `strip`/`lower` normalisation of tickers,
 * `find_row_for_ticker`, the append index, and the clean-up of the ticker list.
 */
module Rows {
  import opened Wrappers
  import opened Sequences

  /** Python's `str.isspace` restricted to ASCII: tab to carriage return, the four separators, space. */
  predicate IsSpace(c: char) {
    9 <= c as int <= 13 || 28 <= c as int <= 32
  }

  /** `str.lstrip()`: drops the leading white space. */
  function StripLeft(s: string): string {
    if s != [] && IsSpace(s[0]) then StripLeft(s[1..]) else s
  }

  lemma {:induction false} StripLeftSplits(s: string)
    ensures var r := StripLeft(s);
      && |r| <= |s| && r == s[|s| - |r|..]
      && AllSpaces(s[..|s| - |r|])
      && (r != [] ==> !IsSpace(r[0]))
  {
    if s != [] && IsSpace(s[0]) {
      StripLeftSplits(s[1..]);
      var r := StripLeft(s);
      assert s[..|s| - |r|] == [s[0]] + s[1..][..|s| - 1 - |r|];
    }
  }

  /** `str.rstrip()`: drops the trailing white space. */
  function StripRight(s: string): string {
    if s != [] && IsSpace(s[|s| - 1]) then StripRight(s[..|s| - 1]) else s
  }

  lemma {:induction false} StripRightSplits(s: string)
    ensures var r := StripRight(s);
      && |r| <= |s| && r == s[..|r|]
      && AllSpaces(s[|r|..])
      && (r != [] ==> !IsSpace(r[|r| - 1]))
  {
    if s != [] && IsSpace(s[|s| - 1]) {
      StripRightSplits(s[..|s| - 1]);
      var r := StripRight(s);
      assert s[|r|..] == s[..|s| - 1][|r|..] + [s[|s| - 1]];
    }
  }

  predicate AllSpaces(s: string) {
    forall k :: 0 <= k < |s| ==> IsSpace(s[k])
  }

  /**
   * `str.strip()`: the slice of `s` from its first to its last non-space
   * character; empty when `s` is all white space.
   */
  function Strip(s: string): (r: string)
    ensures |r| <= |s|
  {
    StripBlank(s);
    StripRight(StripLeft(s))
  }

  /** A cell strips to nothing exactly when it is all white space. */
  lemma StripEmptyIff(s: string)
    ensures Strip(s) == [] <==> AllSpaces(s)
  {
    StripBlank(s);
  }

  lemma StripBlank(s: string)
    ensures |StripRight(StripLeft(s))| <= |s|
    ensures StripRight(StripLeft(s)) != [] ==>
      !IsSpace(StripRight(StripLeft(s))[0]) && !IsSpace(StripRight(StripLeft(s))[|StripRight(StripLeft(s))| - 1])
    ensures AllSpaces(s) <==> StripRight(StripLeft(s)) == []
  {
    var l := StripLeft(s);
    StripLeftSplits(s);
    StripRightSplits(l);
    var r := StripRight(l);
    if r != [] {
      assert r[0] == l[0];
    }
  }

  /** `str.lower()` restricted to ASCII letters. */
  function Lower(s: string): (r: string)
    ensures |r| == |s|
    ensures forall i :: 0 <= i < |r| ==> !('A' <= r[i] <= 'Z')
    ensures forall i :: 0 <= i < |s| ==> r[i] == s[i] || ('A' <= s[i] <= 'Z' && r[i] as int == s[i] as int + 32)
  {
    seq(|s|, i requires 0 <= i < |s| => if 'A' <= s[i] <= 'Z' then (s[i] as int + 32) as char else s[i])
  }

  /** The key a ticker cell is compared by. */
  function Normalize(s: string): (r: string)
    ensures |r| <= |s|
  {
    Lower(Strip(s))
  }

  /** A normalised ticker has no capital letter and no surrounding white space. */
  lemma NormalizeShape(s: string)
    ensures var r := Normalize(s);
      && (forall i :: 0 <= i < |r| ==> !('A' <= r[i] <= 'Z'))
      && (r != [] ==> !IsSpace(r[0]) && !IsSpace(r[|r| - 1]))
  {
    StripBlank(s);
  }

  lemma {:induction false} StripLeftOfPadded(pre: string, rest: string)
    requires AllSpaces(pre)
    requires rest != [] ==> !IsSpace(rest[0])
    ensures StripLeft(pre + rest) == rest
  {
    if pre != [] {
      assert (pre + rest)[1..] == pre[1..] + rest;
      StripLeftOfPadded(pre[1..], rest);
    } else {
      assert pre + rest == rest;
    }
  }

  lemma {:induction false} StripRightOfPadded(rest: string, post: string)
    requires AllSpaces(post)
    requires rest != [] ==> !IsSpace(rest[|rest| - 1])
    ensures StripRight(rest + post) == rest
  {
    if post != [] {
      assert (rest + post)[..|rest + post| - 1] == rest + post[..|post| - 1];
      StripRightOfPadded(rest, post[..|post| - 1]);
    } else {
      assert rest + post == rest;
    }
  }

  /** A string padded with white space on both sides strips to its core. */
  lemma StripOfPadded(pre: string, core: string, post: string)
    requires AllSpaces(pre) && AllSpaces(post)
    requires core != [] ==> !IsSpace(core[0]) && !IsSpace(core[|core| - 1])
    ensures Strip(pre + core + post) == core
  {
    var s := pre + core + post;
    if core == [] {
      assert AllSpaces(s) by {
        forall k | 0 <= k < |s| ensures IsSpace(s[k]) {
          if k < |pre| { assert s[k] == pre[k]; } else { assert s[k] == post[k - |pre|]; }
        }
      }
      StripLeftSplits(s);
      assert StripLeft(s) == [];
    } else {
      assert s == pre + (core + post);
      StripLeftOfPadded(pre, core + post);
      StripRightOfPadded(core, post);
    }
  }

  /** Every string is its stripped form padded with white space. */
  lemma StripSplits(s: string) returns (pre: string, post: string)
    ensures AllSpaces(pre) && AllSpaces(post)
    ensures s == pre + Strip(s) + post
    ensures Strip(s) != [] ==> !IsSpace(Strip(s)[0]) && !IsSpace(Strip(s)[|Strip(s)| - 1])
  {
    var l := StripLeft(s);
    var r := Strip(s);
    StripLeftSplits(s);
    StripRightSplits(l);
    pre := s[..|s| - |l|];
    post := l[|r|..];
    assert s == pre + l;
    assert l == r + post;
  }

  /** Stripping is idempotent. */
  lemma StripIdempotent(s: string)
    ensures Strip(Strip(s)) == Strip(s)
  {
    var _, _ := StripSplits(s);
    StripOfPadded([], Strip(s), []);
    assert [] + Strip(s) + [] == Strip(s);
  }

  /** A ticker and the same ticker with extra padding land on the same row key. */
  lemma NormalizeIgnoresPadding(s: string, pre: string, post: string)
    requires AllSpaces(pre) && AllSpaces(post)
    ensures Normalize(pre + s + post) == Normalize(s)
  {
    var p, q := StripSplits(s);
    assert pre + s + post == (pre + p) + Strip(s) + (q + post);
    assert AllSpaces(pre + p) by {
      forall k | 0 <= k < |pre + p| ensures IsSpace((pre + p)[k]) {
        if k < |pre| { assert (pre + p)[k] == pre[k]; } else { assert (pre + p)[k] == p[k - |pre|]; }
      }
    }
    assert AllSpaces(q + post) by {
      forall k | 0 <= k < |q + post| ensures IsSpace((q + post)[k]) {
        if k < |q| { assert (q + post)[k] == q[k]; } else { assert (q + post)[k] == post[k - |q|]; }
      }
    }
    StripOfPadded(pre + p, Strip(s), q + post);
  }

  /**
   * The 1-based index of the first cell of `col`, at row `start` or below,
   * whose normalised text equals the normalised ticker.
   */
  function FirstMatch(col: seq<string>, ticker: string, start: nat): (r: Option<nat>)
    requires start >= 1
    ensures r.Some? ==> start <= r.value <= |col| && HoldsTicker(col, ticker, r.value)
    decreases |col| + 1 - start
  {
    if start > |col| then None
    else if Normalize(col[start - 1]) == Normalize(ticker) then Some(start)
    else FirstMatch(col, ticker, start + 1)
  }

  /** Cell `row` (1-based) of `col` holds `ticker`, up to padding and letter case. */
  predicate HoldsTicker(col: seq<string>, ticker: string, row: nat) {
    1 <= row <= |col| && Normalize(col[row - 1]) == Normalize(ticker)
  }

  /**
   * The meaning of `find_row_for_ticker`: the smallest index at or after
   * `start` whose cell holds the ticker, or None when no such cell exists.
   */
  lemma {:induction false} FirstMatchSpec(col: seq<string>, ticker: string, start: nat)
    requires start >= 1
    ensures var r := FirstMatch(col, ticker, start);
      && (r.Some? ==> start <= r.value <= |col| && HoldsTicker(col, ticker, r.value)
                      && forall k :: start <= k < r.value ==> !HoldsTicker(col, ticker, k))
      && (r.None? ==> forall k :: start <= k ==> !HoldsTicker(col, ticker, k))
    decreases |col| + 1 - start
  {
    if start <= |col| && Normalize(col[start - 1]) != Normalize(ticker) {
      FirstMatchSpec(col, ticker, start + 1);
      assert FirstMatch(col, ticker, start) == FirstMatch(col, ticker, start + 1);
      assert !HoldsTicker(col, ticker, start);
    }
  }

  /**
   * `find_row_for_ticker(ws, ticker, start_row)` over the values of column A
   * (`col_a[start_row - 1:]`, numbered from `start_row`).
   */
  method FindRowForTicker(col: seq<string>, ticker: string, startRow: nat) returns (r: Option<nat>)
    requires startRow >= 1
    ensures r == FirstMatch(col, ticker, startRow)
  {
    var key := Normalize(ticker);
    var idx := startRow;
    while idx <= |col|
      invariant startRow <= idx
      invariant FirstMatch(col, ticker, startRow) == FirstMatch(col, ticker, idx)
      decreases |col| + 1 - idx
    {
      if Normalize(col[idx - 1]) == key {
        return Some(idx);
      }
      idx := idx + 1;
    }
    r := None;
  }

  /** The data rows start at row 4: rows 1 to 3 hold the token, the timestamp and the header. */
  const DATA_START_ROW: nat := 4

  /**
   * `max(4, len(col_a) + 1)`: the row below the last populated cell of
   * column A, never above the first data row.
   */
  function AppendIndex(col: seq<string>): (r: nat)
    ensures r >= DATA_START_ROW && r > |col|
    ensures r == DATA_START_ROW || r == |col| + 1
  {
    if |col| + 1 > DATA_START_ROW then |col| + 1 else DATA_START_ROW
  }

  /** A new row is placed strictly after every row the search could find. */
  lemma AppendIndexAfterEveryMatch(col: seq<string>, ticker: string, start: nat)
    requires start >= 1
    ensures FirstMatch(col, ticker, start).Some? ==> FirstMatch(col, ticker, start).value < AppendIndex(col)
    ensures !HoldsTicker(col, ticker, AppendIndex(col))
  {
    FirstMatchSpec(col, ticker, start);
  }

  /** Every cell stripped, in column order. */
  function StripEach(raw: seq<string>): (r: seq<string>)
    ensures |r| == |raw|
    ensures forall i :: 0 <= i < |raw| ==> r[i] == Strip(raw[i])
  {
    seq(|raw|, i requires 0 <= i < |raw| => Strip(raw[i]))
  }

  /**
   * `[t.strip() for t in cells if t.strip()]`: the stripped cells in column
   * order, blanks left out, repeats kept.
   */
  function StrippedNonBlank(raw: seq<string>): (r: seq<string>)
    ensures forall x :: x in r ==> x != "" && Strip(x) == x
    ensures forall i :: 0 <= i < |raw| && Strip(raw[i]) != "" ==> Strip(raw[i]) in r
    ensures forall x :: x in r ==> exists i :: 0 <= i < |raw| && x == Strip(raw[i])
  {
    if raw == [] then []
    else
      var rest := StrippedNonBlank(raw[1..]);
      assert forall x :: x in rest ==> exists i :: 0 <= i < |raw| && x == Strip(raw[i]) by {
        forall x | x in rest
          ensures exists i :: 0 <= i < |raw| && x == Strip(raw[i])
        {
          var j :| 0 <= j < |raw[1..]| && x == Strip(raw[1..][j]);
          assert raw[j + 1] == raw[1..][j];
        }
      }
      assert forall i :: 1 <= i < |raw| ==> raw[i] == raw[1..][i - 1];
      var t := Strip(raw[0]);
      StripIdempotent(raw[0]);
      if t != "" then [t] + rest else rest
  }

  /**
   * The kept cells are the stripped cells in column order: a subsequence of
   * them holding every non-blank one as often as it occurs, and no blank.
   */
  lemma {:induction false} StrippedNonBlankOrder(raw: seq<string>)
    ensures IsSubseq(StrippedNonBlank(raw), StripEach(raw))
    ensures forall x :: multiset(StrippedNonBlank(raw))[x] == if x == "" then 0 else multiset(StripEach(raw))[x]
  {
    if raw != [] {
      var t := Strip(raw[0]);
      var rest := StrippedNonBlank(raw[1..]);
      StrippedNonBlankOrder(raw[1..]);
      assert StripEach(raw) == [t] + StripEach(raw[1..]);
      assert multiset(StripEach(raw)) == multiset{t} + multiset(StripEach(raw[1..]));
      if t != "" {
        assert StrippedNonBlank(raw) == [t] + rest;
        KeepHead(t, rest, StripEach(raw[1..]));
      } else {
        assert StrippedNonBlank(raw) == rest;
        SkipHead(t, rest, StripEach(raw[1..]));
      }
    }
  }

  /**
   * The ticker list read from column A of the tickers sheet: the first cell is
   * dropped, the others are stripped, and blanks are removed; the tickers stay
   * in column order, repeats included.
   */
  function CleanTickers(raw: seq<string>): (r: seq<string>)
    ensures forall x :: x in r ==> x != "" && Strip(x) == x
    ensures forall i :: 1 <= i < |raw| && Strip(raw[i]) != "" ==> Strip(raw[i]) in r
    ensures forall x :: x in r ==> exists i :: 1 <= i < |raw| && x == Strip(raw[i])
    ensures raw == [] ==> r == []
    ensures raw != [] ==> IsSubseq(r, StripEach(raw[1..]))
    ensures raw != [] ==> forall x :: multiset(r)[x] == if x == "" then 0 else multiset(StripEach(raw[1..]))[x]
  {
    if raw == [] then []
    else
      var r := StrippedNonBlank(raw[1..]);
      StrippedNonBlankOrder(raw[1..]);
      assert forall i :: 1 <= i < |raw| ==> raw[i] == raw[1..][i - 1];
      assert forall x :: x in r ==> exists i :: 1 <= i < |raw| && x == Strip(raw[i]) by {
        forall x | x in r
          ensures exists i :: 1 <= i < |raw| && x == Strip(raw[i])
        {
          var j :| 0 <= j < |raw[1..]| && x == Strip(raw[1..][j]);
          assert raw[j + 1] == raw[1..][j];
        }
      }
      r
  }
}
