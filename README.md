# Sector chart drill-down and budget extraction, modelled in Dafny

This project models the two pieces of logic in a small budget-visualisation
repository:

- **`SectorChart` (chart.js).** A browser controller draws a bar chart of budget
  totals per sector. Clicking a sector bar drills down to that sector's policy
  measures, or, for the sector "C Industrie", to its subsectors and from there to a
  subsector's measures. A back button walks up again. Each view sorts its entries
  with one comparator: larger magnitude first, and among equal magnitudes the
  larger signed value first. Bars are red for amounts of zero or more and aqua
  for negative ones. Labels lose a sector letter or subsector number prefix.
  Measure names are cut to 40 characters.
- **extract_data.py.** The script reads the workbook's "Beleid" sheet and cuts it
  at the first blank row. It drops rows that carry an amount under
  "Niet kunnen toebedelen", then sums sector columns H..Z except "Generiek".
  It keeps the nonzero totals and lists each sector's nonzero measures, naming
  each one from the "Regeling" cell or from the first three cells. It does the
  same for the "Uitsplitsing industrie" sheet, from column 5 onward and up to
  the "SOM" row.

Modules:

| file | module | contents |
|---|---|---|
| text.dfy | `Text` | ASCII whitespace of JavaScript and Python, trim, ASCII upper-casing, join |
| sector_data.dfy | `SectorData` | the `sector_data.json` document: totals, details, industrie subsectors |
| chart_series.dfy | `ChartSeries` | comparator, stable sort, colours, label formatters, the parallel arrays of a chart |
| chart_navigation.dfy | `ChartNavigation` | class `SectorChart`: view, selected sector and subsector, chart on screen, back button |
| extract_data.dfy | `ExtractData` | sheets of cells, truncation, row filter, column choice, totals, measure names, details |

The JSON objects from names to amounts are sequences of `Item`s in key order.
Python's `dict` keeps insertion order. JavaScript's `Object.keys` keeps it too,
except for integer-like keys (see "## Left out").
Objects from names to measure lists are maps.

`Array.prototype.sort` with the source's comparator is modelled as a stable
insertion sort. The ECMAScript specification requires `sort` to be stable.

A spreadsheet is a header of distinct column names and rows of cells:
`Empty` (pandas' NaN), `Str` (text) or `Num` (a number). Columns are referred to
by index, and an index names the same column as its header name because the
names are distinct. A cell that `pd.to_numeric(errors='coerce')` would turn into
NaN is an `Empty` or a `Str`.

Each loop of the script is a method proved equal to a specification function:
- `TruncateAt` (the `iterrows` scan with `break`);
- `ColumnTotals`;
- `ColumnMeasures`;
- `ColumnDetails`;
- `ExtractIndustrieSubsectors`;
- `ExtractSectorData`.

Lemmas about those functions prove what the script promises.

Every state-changing method of `SectorChart` establishes the invariant `Valid`:
the chart on screen matches the view, the back button is shown exactly outside
the sector view, and a subsector is selected only on a measure chart. Clicks
(`OnBarClick`) and the back button (`GoBack`) also keep the stronger `Reachable`: every selection is a key of the document, and
subsectors are reached only through "C Industrie". Clicks and the back button
keep both.

## Model

| member | source | states |
|---|---|---|
| ChartSeries.Compare | chart.js:84-90 | definition, not a proved property: the sort comparator, `absB - absA` when the magnitudes differ and `b - a` otherwise (its order is proved by `CompareIsOrder` and `PrecedesIsTotalOrder`) |
| ChartSeries.CompareIsOrder | chart.js:84-90 | the comparator's result is at most zero exactly when the first amount may precede the second (larger magnitude, or equal magnitude and larger or equal value); it is antisymmetric and zero only for equal amounts |
| ChartSeries.PrecedesIsTotalOrder | chart.js:84-90 | the order the comparator induces is reflexive, total, antisymmetric and transitive |
| ChartSeries.InsertPermutes | chart.js:84-90 | inserting an entry adds exactly that entry: the result is a permutation of the input plus it |
| ChartSeries.InsertSorted | chart.js:84-90 | inserting into a sorted list yields a sorted list |
| ChartSeries.Sort | chart.js:84-90 | the sorted entries are ordered by magnitude then signed value, and are a permutation of the input |
| ChartSeries.SortIsStable | chart.js:84-90 | entries with the same amount keep their input order after the sort |
| ChartSeries.WithAmountInsert | chart.js:84-90 | inserting an entry changes the entries of one amount only by putting it first among them |
| ChartSeries.TieGoesToPositive | chart.js:88-89 | of two amounts with the same magnitude the positive one sorts first (12.5 before -12.5) |
| ChartSeries.FormatSectorName | chart.js:650-653 | with a leading capital letter followed by whitespace, the result is the rest of the name trimmed; otherwise the trimmed name; either way no whitespace at the ends |
| ChartSeries.LeadingDigits | chart.js:655-658 | the length of the longest run of digits that starts the name |
| ChartSeries.SubsectorPrefixIsRegexMatch | chart.js:655-658 | the number prefix is present exactly when some non-empty digit run at the start is followed by whitespace, which is what `/^\d+\s+/` matches |
| ChartSeries.FormatSubsectorName | chart.js:655-658 | with a leading number followed by whitespace, the result is the rest after the digits trimmed; otherwise the trimmed name; either way no whitespace at the ends |
| ChartSeries.CleanLabelsUnchanged | chart.js:650-658 | a trimmed name without the prefix is returned unchanged by both formatters |
| ChartSeries.FormatMeasureName | chart.js:660-666 | the result has at most 40 characters; a name of at most 40 is unchanged; a longer one becomes its first 37 characters followed by "...", exactly 40 |
| ChartSeries.FormatMeasureNameIdempotent | chart.js:660-666 | truncating a truncated name changes nothing |
| ChartSeries.SeriesOf | chart.js:92-98 | the parallel arrays have one entry per sorted item, in order, with the view's label and tooltip name for each key and the colour of each amount |
| ChartSeries.SortedAmounts | chart.js:84-94 | consecutive bar amounts of a sorted list are in comparator order, and every bar's key and amount is one of the entries |
| ChartSeries.StableForAll | chart.js:84-90 | stability holds for every amount at once |
| ChartSeries.BarColor | chart.js:98 | definition, not a proved property: red for amounts of zero or more, aqua for negative ones (stated per bar by `BuildSeriesLabels`) |
| ChartSeries.BuildSeriesIsSorted | chart.js:77-98 | one bar per entry, sorted with the comparator: consecutive amounts decrease in magnitude, or tie in magnitude and do not increase. Bar i shows key i together with that key's own amount from the entries (index alignment of `originalSectors` and `data`) |
| ChartSeries.BuildSeriesPermutes | chart.js:77-98 | the bars' (key, amount) pairs are a permutation of the entries, and entries with equal amounts keep their input order |
| ChartSeries.BuildSeriesLabels | chart.js:92-98 | each label and tooltip name comes from the view's formatter applied to the bar's key. A bar is red exactly when its amount is zero or more, and aqua exactly when it is negative |
| SectorData.Names | chart.js:77 | definition, not a proved property: the key set of a name-to-amount object, every item's name and nothing else |
| SectorData.Lookup | chart.js:224 | definition, not a proved property: `details[key] \|\| []`, the list under the key, or empty when the key is absent |
| ChartNavigation.SectorChart.constructor | chart.js:3-40 | after loading the document the controller shows the sector bars in the sector view, with no selection and the back button hidden, in a reachable state |
| ChartNavigation.SectorChart.CreateSectorChart | chart.js:73-220 | draws the sector bars from the document and hides the back button; the selected sector is left as it was |
| ChartNavigation.SectorChart.ShowSectorView | chart.js:357-360 | clears the subsector and shows the sector bars; the selected sector is left as it was |
| ChartNavigation.SectorChart.ShowMeasureView | chart.js:222-350 | no measures under the sector: the "no measures" notice and no state change. Otherwise: the sorted measure bars, measures view, the sector selected, the subsector untouched, the back button shown |
| ChartNavigation.SectorChart.ShowSubsectorView | chart.js:362-513 | no subsector totals in the document: the "no subsector data" notice and no state change. Otherwise: the subsector bars under the given sector, subsectors view, the subsector cleared, the back button shown |
| ChartNavigation.SectorChart.ShowSubsectorMeasures | chart.js:515-648 | no `industrie_subsectors` or no `subsector_details` in it: the read fails and nothing changes. No measures for the subsector: the notice and no state change. Otherwise: the sorted measure bars, measures view, both sector and subsector selected, the back button shown |
| ChartNavigation.SectorChart.GoBack | chart.js:60-71 | from measures with a subsector selected: the subsector view of the selected sector, which a reachable state always renders. From anywhere else: the sector view with the subsector cleared. Reachable states stay reachable |
| ChartNavigation.SectorChart.OnBarClick | chart.js:201-212 | a hit on bar i of the sector chart routes its key, which is the sector whose total bar i shows. "C Industrie" goes to the subsector view; any other key goes to that sector's measures. A hit on a subsector bar opens that subsector's measures under the sector captured when the chart was drawn. A miss or a measure bar does nothing. Reachable states stay reachable |
| Text.TrimStart | chart.js:652 | drops exactly the longest leading run of whitespace |
| Text.TrimEnd | chart.js:652 | drops exactly the longest trailing run of whitespace |
| Text.Trim | extract_data.py:122 | the result has no whitespace at either end and is no longer than the input |
| Text.TrimIsSlice | extract_data.py:122 | the trimmed string is the slice between a leading and a trailing whitespace run of the input |
| Text.TrimOfTrimmed | chart.js:652 | a string already trimmed is its own trim |
| Text.TrimIdempotent | chart.js:652 | trimming twice is trimming once |
| Text.TrimAfterTrimStart | chart.js:652 | stripping the whitespace after a removed prefix first does not change the trim |
| Text.UpperLength | extract_data.py:122 | upper-casing keeps the length |
| Text.UpperAt | extract_data.py:122 | upper-casing works character by character on ASCII letters |
| Text.Join | extract_data.py:81 | a non-empty join starts with its first part |
| Text.JoinAppend | extract_data.py:81 | joining one part is that part, and joining one more part appends the separator and that part, so the join of p1..pn is p1, sep, p2, ..., sep, pn |
| ExtractData.SumLabelLetters | extract_data.py:122 | a cell marks the sum row exactly when, stripped, it is the letters S, O, M in any case |
| ExtractData.IsBlankRow | extract_data.py:20 | definition, not a proved property: every cell of the row is empty (`row.isna().all()`) |
| ExtractData.IsSumRow | extract_data.py:121-122 | definition, not a proved property: the first cell is text whose stripped upper-case form is "SOM" (characterised by `SumLabelLetters`) |
| ExtractData.RowsBefore | extract_data.py:18-26 | the kept rows are a prefix of the sheet, none of them matches, and the row after them (if any) matches |
| ExtractData.RowsBeforeIsCut | extract_data.py:18-26 | the cut is exactly at the first matching index, or at the end when no row matches |
| ExtractData.TruncateAt | extract_data.py:118-128 | the scan with `break` followed by `iloc[:idx]` keeps exactly the rows before the first blank (or "SOM") row; all rows when there is none |
| ExtractData.DropUnallocated | extract_data.py:34-38 | a row is kept exactly when it is a row of the input with no number in the "Niet kunnen toebedelen" column |
| ExtractData.DropUnallocatedKeepsOrder | extract_data.py:38 | the filter distributes over concatenation, so kept rows stay in order |
| ExtractData.DropUnallocatedWidth | extract_data.py:38 | filtering keeps the rows' width |
| ExtractData.IndicesExcept | extract_data.py:46 | the indices of a range whose column name differs from the excluded one, increasing |
| ExtractData.SectorColumns | extract_data.py:44-46 | a column is a sector column exactly when it lies in H..Z, exists in the sheet and is not named like the "Generiek" column; in sheet order |
| ExtractData.IndexRange | extract_data.py:131 | exactly the indices of a range, increasing |
| ExtractData.SubsectorColumns | extract_data.py:131 | a column is a subsector column exactly when its index is 5 or more; in sheet order |
| ExtractData.ColumnSum | extract_data.py:56 | definition, not a proved property: `df[col].sum()`, the sum of the column's numbers over the rows; a cell with no number adds nothing, as `sum` skips NaN |
| ExtractData.NonzeroTotalsMembers | extract_data.py:54-58 | an entry is in the totals exactly when it is the nonzero sum of one of the chosen columns, under that column's name |
| ExtractData.NonzeroTotalsKeys | extract_data.py:138-142 | a name is a totals key exactly when a chosen column of that name has a nonzero sum |
| ExtractData.ColumnTotals | extract_data.py:54-58 | the totals loop produces the nonzero column sums in column order |
| ExtractData.MeasureName | extract_data.py:67-81 | definition, not a proved property: the "Regeling" text, or the " - " join of the non-empty texts of columns 0-2 (stated by `MeasureNameRule` and `MeasureNameJoins`) |
| ExtractData.MeasureNameRule | extract_data.py:69-84 | a text "Regeling" cell names the measure, and an empty text gives no name with no fallback. Otherwise the name exists exactly when one of the first three cells holds non-empty text. A name is never empty |
| ExtractData.NonEmptyPartsOfThree | extract_data.py:79 | `[p for p in parts if p]` of three texts keeps the non-empty ones in order |
| ExtractData.MeasureNameJoins | extract_data.py:73-81 | with no text "Regeling" cell, the name is the non-empty texts among the first three cells, in column order, with " - " between consecutive ones. All seven cases are spelled out, e.g. texts a, b, c give `a - b - c` and a, "", c give `a - c` |
| ExtractData.MeasuresAreRecorded | extract_data.py:65-88 | every recorded measure has a nonzero amount and a non-empty name |
| ExtractData.MeasuresComeFromRows | extract_data.py:65-88 | a measure is recorded exactly when some row holds that nonzero amount in the column and has that name |
| ExtractData.MeasuresKeepRowOrder | extract_data.py:65-88 | the measures of two blocks of rows are those of the first followed by those of the second, so measures follow row order |
| ExtractData.ColumnMeasures | extract_data.py:149-172 | the `iterrows` loop yields exactly the measures of the column in row order |
| ExtractData.DetailsOfContents | extract_data.py:61-89 | the details have a key for exactly the chosen columns whose name is a totals key, holding that column's measures |
| ExtractData.ColumnDetails | extract_data.py:145-173 | the details loop fills the details dictionary as specified |
| ExtractData.SectorRows | extract_data.py:16-38 | there is a cut k: no row before k is blank, row k is blank when it exists, and the sector rows are the filter of the rows before k, in order. Every one is a sheet row with no number under "Niet kunnen toebedelen", as wide as the header |
| ExtractData.SubsectorRows | extract_data.py:118-128 | the subsector rows are a prefix of the sheet with no "SOM" row in it, followed by the first "SOM" row when the prefix is not the whole sheet |
| ExtractData.SectorTablesOf | extract_data.py:29-30 | extraction fails exactly when the sheet has fewer than six columns, naming column 4 or 5 as missing |
| ExtractData.ExtractIndustrieSubsectors | extract_data.py:112-180 | the function's steps compute the subsector totals and details as specified |
| ExtractData.ExtractSectorData | extract_data.py:4-110 | the function's steps compute the document as specified, failing like `df.columns[4]` / `df.columns[5]` on a narrow sheet |
| ExtractData.TablesKeysAgree | extract_data.py:62-63 | the details have exactly the totals' keys, each holding its column's measures |
| ExtractData.TablesMeasuresRecorded | extract_data.py:83-89 | every measure in the details is named and nonzero |
| ExtractData.SectorTotalsKeys | extract_data.py:44-58 | a sector key is present exactly when an H..Z column not named "Generiek" has that name and a nonzero sum over the kept rows; "Generiek" is never a sector |
| ExtractData.SubsectorTotalsKeys | extract_data.py:131-142 | a subsector key is present exactly when a column from index 5 has that name and a nonzero sum over the rows before "SOM" |
| ExtractData.TotalsAreNonzero | extract_data.py:57 | every total is nonzero |
| ExtractData.TablesWellShaped | extract_data.py:54-89 | the extracted tables have matching keys, nonzero totals and named nonzero measures |
| ExtractData.ChartDataProperties | extract_data.py:96-100 | the document fails only on a "Beleid" sheet of fewer than six columns. Otherwise both table pairs are well shaped, the subsector tables sit under `industrie_subsectors`, and "Generiek" is not a sector |

## Left out

- Fetching `sector_data.json`, `alert`, and the DOM writes of the back button, info text and titles are I/O. The back button is the field `backButtonShown`; an alert is a `Notice` result; the loaded document is a constructor parameter.
- A failed `loadData` is left out. So is the moment before it completes, when no chart exists yet: the constructor models the state after it.
- Chart.js configuration is left out: fonts, axes, tooltips and styling, and the `toFixed` rendering of totals. These are parameters of a foreign library.
- `chart.destroy()` / `new Chart` is the foreign library's resource lifetime. The model assigns the `chart` field, recording the entries the bars were built from. `Chart.Drawn` derives the parallel arrays from those entries.
- Event-listener wiring and `DOMContentLoaded` are glue code. The handlers are the methods `OnBarClick` and `GoBack`.
- Lengths and characters are code points, while JavaScript counts UTF-16 code units and Python counts code points. `FormatMeasureName` therefore differs from the source on names with characters outside the Basic Multilingual Plane.
- Only ASCII whitespace is modelled for `\s`, `trim()` and `strip()`. Only ASCII letters are modelled for `upper()`.
- Keys that hit JavaScript's prototype chain (such as "constructor") are left out. `details[key]` on such a key reads an inherited property rather than a missing one.
- Amounts are exact reals. Float summation, rounding, NaN and infinities are left out. A column whose cells are all NaN sums to zero, as in pandas.
- `pd.read_excel`, `json.dump` and the `print` diagnostics are I/O. The sheets are parameters of `ExtractSectorData`.
- Whether pandas reads a cell as a number, text or NaN, and how `to_numeric` treats numeric-looking text, are left out. The sheet-reading step decides them, and the `Cell` constructors record the result.
- Integer-like keys (such as "7" or "2023") are not reordered. `Object.keys` lists them first, in ascending numeric order, while the model keeps every object in insertion order. With equal amounts, the stable sort then differs: `{"B": 5.0, "7": 5.0}` is drawn "7" first, but the model draws "B" first.
- The sheet's row index is taken to be the default 0-based one, so `iloc[:idx]` with the label found by `iterrows` cuts at that position.
- The numeric conversion of the "Generiek" column (extract_data.py:35) is not modelled. No later step reads that column's values.

## Notes on the source

- The navigation invariant "a subsector is selected only under the Industrie sector" is not guaranteed by `showSubsectorMeasures` itself, which accepts any sector argument. It holds for every state reachable by clicks and the back button. The model proves it there, as part of `Reachable`.
- When `industrie_subsectors` or its `subsector_details` is missing, `showSubsectorMeasures` fails on a property read of `undefined` rather than showing an alert. From a reachable state only the second can happen: the subsector view is drawn only when `subsector_totals` exists. The model reports this as `MissingSubsectorDetails` and leaves the state unchanged.
- Going back keeps `currentSector`: the sector view does not clear it.
- `goBack` tests `currentSubsector` for truthiness, so a subsector named "" counts as no subsector (`Truthy`).
- The "Generiek" exclusion compares column names. Names in a sheet are distinct and "Generiek" is column 5, outside H..Z, so the exclusion never removes a column. That "Generiek" is never a sector key is proved regardless.
