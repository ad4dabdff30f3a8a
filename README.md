# LunarCrush sheet updater — a Dafny model of its core

`v1.py` fills a Google Sheet, called `cryptocurrencies`, with data about each
ticker. One run goes as follows:

1. A bearer token is captured in a browser.
2. The ticker list is read from column A of the `Tickers` sheet.
3. For each ticker, the JSON document of its LunarCrush topic is fetched.
4. The document is flattened into a map from column name to value.
5. That map is written as one row of the data sheet.

The layout of the data sheet:

- Row 2 holds the token in A2 and a timestamp in B2.
- Row 3 is the header row.
- Data rows start at row 4. Each is keyed by the ticker in column A.

The header row grows during a run:

- The 15 `metric_trends_*` columns are added when missing.
- A `change_intervals_<key>` column is added for every change-interval key
  not seen before.
- `raw_json` is added when missing.

The seen keys live in a module-level list that is never reset, so it outlives
one run.

This project models that core:

- `json.dfy`: the parsed document (`Json`), Python truthiness, and `safe_str`
  (modules `Wrappers`, `JsonValue`).
- `columns.dfy`: `number_to_column`, proved to be the inverse of the
  bijective base-26 column numbering (module `Columns`).
- `traverse.dfy`: `get_nested` and the depth-first `find_first_key_recursive`
  (module `Traverse`).
- `metrics.dfy`: `pick_scalar_from_metric_obj` (module `Metrics`).
- `schema.dfy`: the fixed header list, the metric-trend keys, the pure part
  of `append_new_headers`, and the initial header row. It also holds the
  discovery of change-interval keys, the key list carried across tickers, and
  the growth of the header for one ticker (module `Schema`).
- `flatten.dfy`: `build_values_map_for_ticker` (module `Flatten`).
  - It is specified by `ColumnValue(j, c)`, the value the builder stores
    under column `c`.
  - It is implemented section by section, like the source, and proved equal
    to that specification.
- `cells.dfy`: `is_too_large`, and the two ways a values map becomes a row.
  The ticker cell of an in-place update is not size-checked; every cell of an
  appended row is (module `Cells`).
- `rows.dfy`: the ASCII `strip`/`lower` normalisation, `find_row_for_ticker`,
  the append index `max(4, len(col_a) + 1)`, and the clean-up of the ticker
  list (module `Rows`).
- `sheet.dfy`: the data sheet as a class `Sheet` (module `Store`).
  - Its fields are the header row, column A and the written rows.
  - Its methods are the per-ticker upsert of the main loop and a whole run.
  - The main invariant: once a ticker's row is written, the search finds the
    ticker in that row. No ticker that was already listed ever loses its row.

The model follows the code where the code and its stated design disagree:

- A metric-trend value that is an empty object (`{}`) becomes the text `{}`.
  It is not treated as absent. See `Metrics.PickSerialisesScalarFreeObject`.
- The change-interval key list is never reset, so keys are not rediscovered
  on each run. If the header row is later found empty and rebuilt, the
  columns of keys already known are never added again. See
  `Store.RecreatedHeaderLacksKnownKeys`.
- The comment at v1.py:492 speaks of A4 and below, but the code drops only
  the first cell of the ticker column (`raw[1:]`). See `Rows.CleanTickers`.
- `raw_json` is a header column, but the normal path never writes a value
  into it, so its cell is blank. See `Store.WrittenCells`.
- v1.py:444 iterates over the module-level key list instead of its parameter.
  The model uses the parameter. At the only call, v1.py:564, the two are the
  same list.

## Model

| member | source | states |
|---|---|---|
| JsonValue.Lookup | v1.py:97-98 | a key lookup in a dict fails exactly when the key is absent; otherwise it returns a value bound to the key |
| JsonValue.LookupKeepsDistinctKeys | v1.py:97-98 | the value a lookup finds in a document with distinct keys has distinct keys itself |
| JsonValue.Dumps | v1.py:84-85 | the serialisation of a list starts with `[` and that of an object with `{` |
| JsonValue.SafeStr | v1.py:79-87 | the text is empty exactly for None and the empty string; a string is its own text; lists and objects are serialised |
| Columns.NumberToColumn | v1.py:69-76 | fails exactly when n < 1; otherwise returns a non-empty string of capital letters that reads back as n |
| Columns.ColumnNameIsLetters | v1.py:69-76 | every column name is made of capital letters, and it is non-empty exactly when n >= 1 |
| Columns.ColumnNumberOfName | v1.py:69-76 | reading back the name of n gives n |
| Columns.ColumnNameOfNumber | v1.py:69-76 | naming the number of a letter string gives that string |
| Columns.ColumnNameInjective | v1.py:69-76 | distinct numbers have distinct column names |
| Traverse.NestedGetSpec | v1.py:94-104 | when each path step finds a key in an object, the result is the last value on that chain; when no such chain exists, the result is the default |
| Traverse.GetNested | v1.py:94-104 | the loop computes the nested lookup |
| Traverse.NestedGet | v1.py:94-104 | the empty path gives the value itself; a non-empty path through a non-object gives the default |
| Traverse.NestedGetKeepsDistinctKeys | v1.py:94-104 | a nested lookup in a document with distinct keys ends at a value with distinct keys |
| Traverse.FindInChildrenFirstHit | v1.py:215-224 | the search over children returns the result of the first child whose search finds something, and None when none does |
| Traverse.FindFirstKey | v1.py:212-225 | the search itself: own binding first, else the children in order (its properties are the lemmas around it) |
| Traverse.FindInChildren | v1.py:215-224 | the loop over an object's values or a list's items, the first non-None hit winning (stated by `FindInChildrenFirstHit`) |
| Traverse.FindFirstKeySound | v1.py:212-225 | a non-None result is bound to the key somewhere in the document |
| Traverse.FindFirstKeyComplete | v1.py:212-225 | when some binding of the key holds a value other than None, and no binding holds None, the search finds a value |
| Traverse.FindFirstKeyPrefersOwn | v1.py:213-215 | an object's own binding of the key wins over anything nested |
| Metrics.FirstConventional | v1.py:235-237 | a result is a scalar bound to one of the conventional keys |
| Metrics.FirstScalarValue | v1.py:238-240 | a result is a scalar value of the object |
| Metrics.PickScalar | v1.py:228-251 | the result is None or a scalar; it is None exactly for None and the empty list; a scalar is returned unchanged |
| Metrics.FirstConventionalSpec | v1.py:235-237 | the first conventional key, in list order, that binds a scalar gives the result |
| Metrics.FirstConventionalNone | v1.py:235-237 | with no conventional key bound to a scalar, nothing is found |
| Metrics.FirstScalarValueSpec | v1.py:238-240 | the first scalar value in iteration order is returned |
| Metrics.FirstScalarValueNone | v1.py:238-240 | an object without scalar values gives nothing |
| Metrics.PickPrefersConventional | v1.py:234-237 | an object picks the value of its first conventional key that binds a scalar |
| Metrics.PickFallsBackToFirstScalar | v1.py:234-240 | without such a key, it picks the first scalar value |
| Metrics.PickSerialisesScalarFreeObject | v1.py:234-244 | an object without scalar values is serialised; `{}` becomes the text `{}` |
| Metrics.PickListCase | v1.py:244-250 | a non-empty list gives its first element when that is a scalar, else its serialisation |
| Metrics.PickExamples | v1.py:228-251 | `{"value": 5, "current": 9}` picks 5; `{"foo": "bar"}` picks "bar" |
| Schema.Missing | v1.py:161 | the candidates not in the current list, in the order supplied and as often as supplied: a subsequence of the candidates holding each absent candidate as many times as it occurs and no present one |
| Schema.MissingConcat | v1.py:161 | the missing candidates of two lists in a row are those of the first followed by those of the second, so supply order is kept |
| Schema.MissingNoDup | v1.py:161 | distinct candidates give distinct missing headers |
| Schema.AppendMissing | v1.py:160-164 | the current headers stay a prefix; the appended tail is a subsequence of the candidates holding every absent candidate as often as it occurs and no present one; nothing changes when nothing is missing |
| Schema.MissingEmptyIff | v1.py:161-163 | nothing is missing exactly when every candidate is present already |
| Schema.AppendMissingIdempotent | v1.py:160-164 | appending the same candidates a second time adds nothing |
| Schema.AppendMissingNoDup | v1.py:160-164 | a header row without duplicates keeps that property |
| Schema.InitialHeaders | v1.py:502-507 | the fixed headers, then the metric-trend columns in `METRIC_TRENDS_KEYS` order, then `raw_json` last |
| Schema.ChangeIntervalColumnKey | v1.py:548 | a change-interval column starts with `change_intervals_` and the rest of its name is its key |
| Schema.ChangeIntervalColumnsNoDup | v1.py:548 | distinct keys give distinct change-interval columns |
| Schema.PrefixedNoDup | v1.py:376-448 | distinct keys behind one prefix give distinct column names |
| Schema.MetricColumnsNoDup | v1.py:318-322 | the fifteen metric-trend columns are distinct |
| Schema.NoDupConcat | v1.py:161 | two lists without repeats and without a common element join into one without repeats |
| Schema.FamiliesStartWithPrefix | v1.py:376-448 | the columns of each prefixed family start with that family's first letter, which sets the families apart |
| Schema.GatherChangeIntervalKeysNoDup | v1.py:344-348 | the change-interval keys of a document whose objects bind each key once are distinct |
| Schema.AccumulateKeysNoDup | v1.py:540-546 | the discovered key list gains no repeat from a document with distinct keys |
| Schema.GrowColumnsNoDup | v1.py:547-556 | the metric-trend and change-interval growth never appends a column twice or one the header holds |
| Schema.EnsureRawJsonNoDup | v1.py:557-560 | adding `raw_json` keeps a header without repeats |
| Schema.GrowHeadersNoDup | v1.py:540-560 | header growth for a document with distinct change-interval keys keeps the header without repeated columns |
| Schema.GatherChangeIntervalKeys | v1.py:344-348 | when `data.change_intervals` is an object, its keys in iteration order; otherwise no keys |
| Schema.AccumulateKeys | v1.py:540-546 | the known keys stay a prefix; the new tail is the document's keys not known yet, in the document's order and as often as they occur |
| Schema.GrowColumnsSpec | v1.py:547-556 | the header stays a prefix; afterwards every metric-trend column and the column of every new key are present, and nothing else is added |
| Schema.GrowHeadersSpec | v1.py:540-560 | the header stays a prefix and gains every metric-trend column, the columns of new keys and `raw_json`, and nothing else; a header covering the known keys covers the extended key list |
| Schema.GrowColumns | v1.py:547-556 | the header stays a prefix of the grown header |
| Schema.EnsureRawJson | v1.py:557-560 | the header stays a prefix; `raw_json` is present afterwards; nothing changes when it was present; nothing else is added |
| Schema.GrowHeaders | v1.py:540-560 | the header stays a prefix and holds `raw_json` afterwards |
| Cells.Fit | v1.py:90-91 | a cell longer than 50000 characters becomes blank; other cells are unchanged |
| Cells.IsTooLarge | v1.py:90-91 | a text is too large when longer than `MAX_CELL_LENGTH` (50000); its effect is stated by `Cells.Fit` |
| Cells.UpdateCell | v1.py:191-200 | a column the map lacks gives a blank cell; a non-ticker cell never exceeds the maximum length |
| Cells.AppendCell | v1.py:583-588 | a column the map lacks gives a blank cell; a cell never exceeds the maximum length and is blank or the serialised value |
| Cells.BuildUpdateRow | v1.py:188-200 | the loop builds `UpdateRow`: one cell per header, in order; the ticker value unchecked, every other column its serialised value, blank when too large |
| Cells.BuildAppendRow | v1.py:581-588 | the loop builds `AppendRow`: one cell per header, in order; every column its serialised value, blank when too large |
| Cells.MinimalRow | v1.py:533 | the ticker followed by blanks, one per remaining header |
| Cells.UpdateCellCases | v1.py:188-200 | a missing value gives a blank cell; an oversized value blanks its cell outside the ticker column; a value that fits is written as its text |
| Cells.OversizedValueBlanksOnlyItsCell | v1.py:188-200 | an oversized value blanks only its own cell and leaves the rest of the row as it was |
| Rows.Lower | v1.py:180 | lower-casing keeps the length, leaves no capital letter, and changes only capital letters |
| Rows.StripOfPadded | v1.py:180 | a string padded with white space strips to its core |
| Rows.StripSplits | v1.py:180 | every string is its stripped form padded with white space, and the stripped form neither starts nor ends with white space |
| Rows.StripIdempotent | v1.py:180 | stripping twice is stripping once |
| Rows.Strip | v1.py:180 | the stripped text is never longer than the cell (its shape is stated by Rows.StripSplits, its emptiness by Rows.StripEmptyIff) |
| Rows.StripEmptyIff | v1.py:180 | a cell strips to nothing exactly when it is all white space |
| Rows.Normalize | v1.py:180 | the compared key is no longer than the cell |
| Rows.NormalizeShape | v1.py:180 | the compared key has no capital letter and no surrounding white space |
| Rows.NormalizeIgnoresPadding | v1.py:180 | padding a ticker with white space does not change the row it matches |
| Rows.FirstMatchSpec | v1.py:176-185 | the result is the smallest row at or after the start row whose cell matches the ticker, and None when no row matches |
| Rows.FirstMatch | v1.py:176-185 | a found row lies at or after the start row, within the column, and holds the ticker |
| Rows.FindRowForTicker | v1.py:176-185 | the scan returns that first matching row |
| Rows.AppendIndex | v1.py:531 | the append row is row 4 or the row below the last cell of column A, whichever is larger |
| Rows.AppendIndexAfterEveryMatch | v1.py:526-531 | the append row lies after every row the search can find, and holds no matching ticker |
| Rows.StrippedNonBlank | v1.py:494 | every kept cell is non-blank and already stripped; every non-blank stripped cell is kept; every kept cell comes from the column |
| Rows.StrippedNonBlankOrder | v1.py:494 | the kept cells are a subsequence of the stripped cells in column order, holding each non-blank one as often as it occurs and no blank one |
| Rows.CleanTickers | v1.py:493-494 | the first cell is dropped; the rest are the stripped non-blank cells in column order, each as often as it occurs; no cell gives nothing |
| Flatten.AssetColumnValue | v1.py:389-417 | an `asset_` column reads its field from the asset object |
| Flatten.MetricColumnValue | v1.py:425-439 | a `metric_trends_` column holds the metric-trend value of its key |
| Flatten.ChangeIntervalColumnValue | v1.py:442-448 | a `change_intervals_` column holds the change-interval value of its key |
| Flatten.SentimentTypeColumnValue | v1.py:376-386 | a `sentiment_types_` column holds its sub-object of `data.sentiment_types`, `{}` by default |
| Flatten.ColumnValue | v1.py:352-450 | the value stored under each column, family by family (stated per family by the `*ColumnValue` lemmas) |
| Flatten.AssetOf | v1.py:389 | a document that is not an object gives the `{}` default |
| Flatten.MetricTrendsSource | v1.py:425-427 | a truthy top-level `metric_trends` is used as is |
| Flatten.MetricTrendValue | v1.py:428-439 | when the metric trends are an object, each metric-trend value is None or a scalar |
| Flatten.ChangeIntervalValue | v1.py:442-448 | a key the document does not list gives None |
| Flatten.FillDataCounters | v1.py:355-363 | the counters under `data` are stored with their specified values, None when absent |
| Flatten.FillSummaries | v1.py:366-368 | `alerts`, `ai_summary` and `ai_summary_supportive` are stored with their specified values |
| Flatten.FillTypes | v1.py:371-373 | the three `types_*` columns are stored with their specified values, `{}` when absent |
| Flatten.FillSentimentTypes | v1.py:376-386 | the four `sentiment_types_*` columns are stored with their specified values |
| Flatten.LocateAsset | v1.py:389 | the asset is a truthy top-level `asset`, else `data.asset`, `{}` by default |
| Flatten.FillAsset | v1.py:389-417 | every `asset_*` column is stored with its specified value |
| Flatten.LocateMetricTrends | v1.py:425-427 | the metric trends are a truthy top-level value, else `data.metric_trends`, else the first binding the depth-first search finds |
| Flatten.FillMetricTrends | v1.py:425-439 | every `metric_trends_*` column is stored with its specified value |
| Flatten.FillChangeIntervals | v1.py:442-448 | every `change_intervals_*` column of a known key is stored with its specified value |
| Flatten.BuildValuesMap | v1.py:352-450 | an object gives a map whose keys are exactly the value columns of the known keys, each holding its specified value; a non-object gives no map |
| Flatten.NoMetricTrendsFallsBackToChangeIntervals | v1.py:425-437 | with no `metric_trends` binding anywhere, every metric-trend column takes the raw value of the change interval of the same key |
| Flatten.FalsyTopLevelAssetIsSkipped | v1.py:389 | for every document, a falsy top-level `asset` gives way to `data.asset`, `{}` by default |
| Flatten.FalsyTopLevelMetricTrendsIsSkipped | v1.py:425-427 | for every document, a falsy top-level `metric_trends` gives way to `data.metric_trends`, and when that is None or missing, to the depth-first search |
| Flatten.EmptyTopLevelMetricTrendsGivesNone | v1.py:425-439 | for every document whose top-level `metric_trends` is `{}` and with no `data.metric_trends`, the search finds that same `{}`, so every metric-trend column is None whatever the change intervals hold |
| Store.ColValuesSpec | v1.py:178 | column A as read is the written column without its trailing blank cells |
| Store.ColValues | v1.py:178 | column A as read is a prefix of the written column whose last cell, if any, is not blank |
| Store.FirstMatchOfColValues | v1.py:178-181 | for a non-blank ticker, dropping the trailing blanks does not change the search |
| Store.Target | v1.py:526-531 | the row a ticker is written to is its first matching row, else the append row; never above row 4 |
| Store.PopulatedTargetHoldsTicker | v1.py:570-579 | a target row within the populated cells already holds the ticker |
| Store.FoundAtTargetAfterWrite | v1.py:568-592 | once the ticker is written into its target row, the search finds it in exactly that row |
| Store.TargetAvoidsOtherCells | v1.py:568-579 | a row whose column-A cell is filled but does not match the ticker is never the ticker's target row |
| Store.WriteKeepsUnlisted | v1.py:568-592 | writing one ticker of the list into its target row keeps every row whose column-A cell names no ticker of the list |
| Store.ListedSurvivesWrite | v1.py:568-592 | writing a ticker into its target row keeps every ticker that had a row listed |
| Store.RawJsonIsNotFlat | v1.py:352-450 | the builder never fills `raw_json` |
| Store.InitialHeadersHaveNoChangeIntervalColumn | v1.py:502-507 | a newly created header row holds no change-interval column |
| Store.PrefixedHavePrefix | v1.py:376-448 | every column of a prefixed family starts with the family's prefix |
| Store.LiteralHeaderHasNoFamilyPrefix | v1.py:255-316 | no column named outright starts with a family prefix |
| Store.DataCountKeysNoDup | v1.py:258-271 | the fourteen `data` counter columns are distinct |
| Store.LiteralHeadersAvoidTrailing | v1.py:255-316 | no column named before the families is one of the trailing `data` keys |
| Store.LiteralHeadersApart | v1.py:255-316 | the columns named outright are distinct, within and across the two lists |
| Store.FamiliesApart | v1.py:502-507 | the named columns and the three prefixed families, each without repeats, join without repeats |
| Store.SentimentTypeColumnsNoDup | v1.py:375-381 | the four sentiment-type columns are distinct |
| Store.AssetColumnsNoDup | v1.py:389-417 | the asset columns are distinct |
| Store.FreshColumnsNoDup | v1.py:502-506 | the columns of a fresh header before `raw_json` are distinct |
| Store.InitialHeadersNoDup | v1.py:502-507 | a newly created header row holds no column twice |
| Store.RecreatedHeaderLacksKnownKeys | v1.py:501-556 | after the header row is rebuilt, a document whose keys are all known adds no column, so the known keys' columns stay missing |
| Store.WrittenCells | v1.py:562-588 | in a written row, the ticker column holds the ticker (size-checked when appended) and `raw_json` is blank; a value column holds its serialised value, blank when too large; every other column is blank |
| Store.Sheet.constructor | v1.py:151-157 | a sheet with the given header row and column A, and no rows written |
| Store.Sheet.AppendNewHeaders | v1.py:160-172 | the header becomes the missing-candidates append, and column A and the rows are unchanged |
| Store.Sheet.WriteRow | v1.py:188-200 | the row is written over the old one from column A on, and its first cell becomes the cell of column A; no other row or cell of column A changes |
| Store.Sheet.GrowHeader | v1.py:540-560 | the key list is extended and the header grows as the growth function says |
| Store.Sheet.ProcessUnfetched | v1.py:525-537 | a ticker already present is left alone; otherwise a minimal row is appended; afterwards the ticker is found at its target, listed tickers stay listed, and no other row changes |
| Store.Sheet.ProcessDocument | v1.py:539-592 | the header grows, then the in-place or appended row of the document's values is written to the target; afterwards the ticker is found there, listed tickers stay listed, and no other row changes |
| Store.Sheet.WriteDocumentRow | v1.py:562-592 | writes the update row over the ticker's row, or the append row at the append index, and changes no other row |
| Store.Sheet.ProcessTicker | v1.py:523-592 | a document that is None or JSON null leaves a ticker that has a row alone and otherwise writes the minimal row at the append row; any other document grows the header and key list and overwrites the ticker's row with the update row, or writes the append row; no other row or cell of column A changes; the key list only grows and header coverage of the keys is kept; with distinct document keys neither the header nor the key list gains a repeat |
| Store.Sheet.WriteToken | v1.py:484-490 | the token goes to A2, and no ticker's listing changes |
| Store.Sheet.PrepareHeader | v1.py:500-520 | an empty header row becomes the initial headers; otherwise `raw_json` is appended when missing; a header without repeats keeps none |
| Store.Sheet.ProcessAll | v1.py:523-592 | after the loop, every ticker has a row, every ticker already listed in column A stays listed, every row whose column-A cell is filled and names none of the tickers keeps its contents and its cell, and every change-interval key of every fetched document is known; for parsed documents the header and key list keep no repeats |
| Store.Sheet.Step | v1.py:523-592 | one pass of the loop keeps the loop's invariants, among them the header and key list without repeats and the rows that name no ticker of the list unchanged |
| Store.Sheet.RunTickers | v1.py:500-592 | the header is prepared and grown, then every ticker is upserted, with the guarantees of the loop (rows naming no ticker of the list kept); for parsed documents the header and key list keep no repeats |
| Store.Sheet.RunOnce | v1.py:458-609 | without a token nothing changes; without tickers only A2 changes; otherwise the header grows from its old or initial form, every ticker ends up with a row, listed tickers stay listed, data rows naming none of the tickers keep their contents, every discovered key is kept, and for parsed documents the header row and key list never hold a repeat |
| Store.LowWriteKeepsData | v1.py:484-490 | writes to rows 2 and 3 change neither the listed tickers nor the written rows |
| Store.ValuesMapFor | v1.py:562-567 | the values map is the flattened document plus the ticker, or the ticker alone when the document is not an object |

## Left out

- The browser token capture, the Google Sheets client, the HTTP fetch, logging, the timestamp in B2, the 0.25 s pause and the 20-minute main loop are left out. The header written to A3 at v1.py:510 is mirrored into column A.
  - The token is a parameter of `Store.Sheet.RunOnce`.
  - The fetch is a function from ticker to `Option<Json>`, so it gives the same answer for the same ticker.
- Floating-point numbers are left out: JSON numbers are integers.
- `JsonValue.Dumps` does not reproduce the exact text of `json.dumps` (spacing, string escaping, non-ASCII output). Only its first character is stated.
- Repeated keys in a JSON object are left out. `json.loads` keeps the last binding of a repeated key. The model's association list can bind a key twice, and a lookup then takes the first binding. `JsonValue.DistinctKeys` singles out the documents a parsed dict can give, in which every object binds each key once.
- `Store.Sheet.RunOnce`, `RunTickers`, `ProcessAll`, `Step` and `ProcessTicker`: say the header row and the key list stay without repeats only for documents with distinct keys (`Store.ParsedDocuments`). A document that bound a change-interval key twice would list the key twice and append its column twice, which a Python dict cannot cause.
- `Rows.Lower`: `strip` and `lower` are modelled for ASCII only. Unicode white space and case folding are left out.
- Exceptions are left out. This covers a write that raises, the `raw_json` fallback of v1.py:593-607, an error reading column A, and a failure opening a worksheet. Every write is modelled as succeeding.
- A document that is not an object gives the ticker cell alone, as the caught exception at v1.py:563-566 leaves it.
- The A1-style range of each write, built with `number_to_column`, is left out. A write is modelled by its row number and its cells.
- `Store.Sheet.RunOnce`: says every ticker ends up with a row only when the header starts with `ticker` and no ticker is longer than 50000 characters. Otherwise the cell written into column A is not the ticker.
- `Store.Sheet.ProcessTicker`: says listed tickers stay listed under the same two conditions.
- `Cells.BuildUpdateRow`: writes the ticker cell as the text of the stored value rather than the raw value. The two agree because the stored ticker is always a string.
