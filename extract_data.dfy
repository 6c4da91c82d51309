/**
 * The row and column rules of extract_data.py over an abstract spreadsheet:
 * a sheet is its header (column names) and its rows of cells. A cell is
 * empty (NaN), text, or a number; `pd.to_numeric(..., errors='coerce')` turns
 * text into NaN, so after conversion only Num cells count as numbers.
 *
 * Each loop of the script is a method proved against a specification
 * function; the properties of the output are lemmas about those functions.
 */
module ExtractData {
  import opened Text
  import opened SectorData

  datatype Cell = Empty | Str(text: string) | Num(value: real)

  type Row = seq<Cell>

  datatype Sheet = Sheet(columns: seq<string>, rows: seq<Row>)

  /** `df.columns[k]` raised IndexError: the sheet has no column `index`. */
  datatype ExtractError = MissingColumn(index: nat)

  /** The totals and details of one sheet: `sector_totals`/`sector_details`
      or `subsector_totals`/`subsector_details`. */
  datatype Extracted = Extracted(totals: seq<Item>, details: map<string, seq<Item>>)

  /** "Regeling": the measure name. */
  const RegelingColumn: nat := 3
  /** "Niet kunnen toebedelen": amounts that cannot be allocated to a sector. */
  const UnallocatedColumn: nat := 4
  /** "Generiek". */
  const GeneriekColumn: nat := 5
  /** Column H, the first sector column. */
  const FirstSectorColumn: nat := 7
  /** One past column Z, the last sector column. */
  const SectorColumnsEnd: nat := 26
  /** "10 Vervaardiging van ...", the first subsector column. */
  const FirstSubsectorColumn: nat := 5
  const NameSeparator: string := " - "
  const SumLabel: string := "SOM"

  /** What `pd.read_excel` produces: every row as wide as the header, unique
      column names, and no rows without columns. */
  predicate WellFormed(sh: Sheet)
  {
    && RowsOfWidth(sh.rows, |sh.columns|)
    && (forall i, j :: 0 <= i < j < |sh.columns| ==> sh.columns[i] != sh.columns[j])
    && (|sh.rows| > 0 ==> |sh.columns| > 0)
  }

  /** Every row has `w` cells. */
  predicate RowsOfWidth(rows: seq<Row>, w: nat)
  {
    forall i :: 0 <= i < |rows| ==> |rows[i]| == w
  }

  /** Every row has a cell in column `j`. */
  predicate HasColumn(rows: seq<Row>, j: nat)
  {
    forall i :: 0 <= i < |rows| ==> j < |rows[i]|
  }

  /** The number a cell contributes after `pd.to_numeric(..., errors='coerce')`; NaN is skipped by `sum`. */
  function CellAmount(c: Cell): real
  {
    if c.Num? then c.value else 0.0
  }

  // ---------------------------------------------------------------------------
  // Truncation
  // ---------------------------------------------------------------------------

  /** `row.isna().all()`. */
  predicate IsBlankRow(r: Row)
  {
    forall c :: c in r ==> c.Empty?
  }

  /** `first_cell.strip().upper() == "SOM"`. */
  predicate IsSumLabel(t: string)
  {
    Upper(Trim(t, PyWhitespace)) == SumLabel
  }

  /** The first cell is text that reads "SOM" once stripped and upper-cased. */
  predicate IsSumRow(r: Row)
  {
    |r| > 0 && r[0].Str? && IsSumLabel(r[0].text)
  }

  /** Upper-casing gives the capital `u` exactly for `u` and its lower-case letter. */
  lemma AsciiUpperIs(c: char, u: char)
    requires 'A' <= u <= 'Z'
    ensures AsciiUpper(c) == u <==> c == u || c as int == u as int + 32
  {
  }

  /** A label is the sum label exactly when, stripped, it is the three letters
      S, O, M in either case. */
  lemma SumLabelLetters(t: string)
    ensures IsSumLabel(t) <==>
      var s := Trim(t, PyWhitespace);
      && |s| == 3
      && (s[0] == 'S' || s[0] == 's')
      && (s[1] == 'O' || s[1] == 'o')
      && (s[2] == 'M' || s[2] == 'm')
  {
    var s := Trim(t, PyWhitespace);
    UpperLength(s);
    if |s| == 3 {
      UpperAt(s, 0);
      UpperAt(s, 1);
      UpperAt(s, 2);
      assert Upper(s) == [AsciiUpper(s[0]), AsciiUpper(s[1]), AsciiUpper(s[2])];
      AsciiUpperIs(s[0], 'S');
      AsciiUpperIs(s[1], 'O');
      AsciiUpperIs(s[2], 'M');
    }
  }

  /** The rows before the first row satisfying `stop`; all rows when none does.
      The "Beleid" sheet stops at `IsBlankRow`, the industrie sheet at `IsSumRow`. */
  function RowsBefore(rows: seq<Row>, stop: Row -> bool): (kept: seq<Row>)
    ensures kept <= rows
    ensures forall i :: 0 <= i < |kept| ==> !stop(kept[i])
    ensures |kept| < |rows| ==> stop(rows[|kept|])
  {
    if rows == [] || stop(rows[0]) then []
    else [rows[0]] + RowsBefore(rows[1..], stop)
  }

  /** `RowsBefore` cuts exactly at the first index `k` whose row satisfies
      `stop`, or at the end when there is none. */
  lemma {:induction false} RowsBeforeIsCut(rows: seq<Row>, stop: Row -> bool, k: nat)
    requires k <= |rows|
    requires forall i :: 0 <= i < k ==> !stop(rows[i])
    requires k < |rows| ==> stop(rows[k])
    ensures RowsBefore(rows, stop) == rows[..k]
  {
    if k > 0 {
      RowsBeforeIsCut(rows[1..], stop, k - 1);
      assert rows[..k] == [rows[0]] + rows[1..][..k - 1];
    }
  }

  /** The scan for the first matching row (`empty_row_idx`, `som_row_idx`)
      followed by `df.iloc[:idx]` when one was found. */
  method TruncateAt(rows: seq<Row>, stop: Row -> bool) returns (kept: seq<Row>)
    ensures kept == RowsBefore(rows, stop)
  {
    var stopRowIdx: Option<nat> := None;
    var i := 0;
    while i < |rows|
      invariant 0 <= i <= |rows|
      invariant stopRowIdx.None?
      invariant forall k :: 0 <= k < i ==> !stop(rows[k])
    {
      if stop(rows[i]) {
        stopRowIdx := Some(i);
        break;
      }
      i := i + 1;
    }
    if stopRowIdx.Some? {
      kept := rows[..stopRowIdx.value];
    } else {
      kept := rows;
    }
    RowsBeforeIsCut(rows, stop, |kept|);
  }

  // ---------------------------------------------------------------------------
  // Row filter and column selection
  // ---------------------------------------------------------------------------

  /** `df[pd.isna(df[niet_toebedelen_col])]`: drops every row with a number in
      the "Niet kunnen toebedelen" column, keeping the others in order. */
  function DropUnallocated(rows: seq<Row>): (kept: seq<Row>)
    requires HasColumn(rows, UnallocatedColumn)
    ensures forall r: Row :: r in kept <==> r in rows && !r[UnallocatedColumn].Num?
    ensures |kept| <= |rows|
  {
    if rows == [] then []
    else (if rows[0][UnallocatedColumn].Num? then [] else [rows[0]]) + DropUnallocated(rows[1..])
  }

  /** The filter distributes over concatenation, so it keeps the row order. */
  lemma {:induction false} DropUnallocatedKeepsOrder(a: seq<Row>, b: seq<Row>)
    requires HasColumn(a, UnallocatedColumn) && HasColumn(b, UnallocatedColumn)
    ensures DropUnallocated(a + b) == DropUnallocated(a) + DropUnallocated(b)
  {
    if a != [] {
      assert (a + b)[1..] == a[1..] + b;
      DropUnallocatedKeepsOrder(a[1..], b);
    } else {
      assert a + b == b;
    }
  }

  /** Dropping rows keeps every remaining row as wide as before. */
  lemma {:induction false} DropUnallocatedWidth(rows: seq<Row>, w: nat)
    requires RowsOfWidth(rows, w) && w > UnallocatedColumn
    ensures RowsOfWidth(DropUnallocated(rows), w)
  {
    if rows != [] {
      DropUnallocatedWidth(rows[1..], w);
    }
  }

  /** The indices `lo .. hi-1` whose column name differs from `excluded`. */
  function IndicesExcept(columns: seq<string>, lo: nat, hi: nat, excluded: string): (r: seq<nat>)
    requires hi <= |columns|
    ensures forall j :: j in r <==> lo <= j < hi && columns[j] != excluded
    ensures forall a, b :: 0 <= a < b < |r| ==> r[a] < r[b]
    ensures forall a :: 0 <= a < |r| ==> lo <= r[a] < hi
    decreases hi - lo
  {
    if lo >= hi then []
    else (if columns[lo] != excluded then [lo] else []) + IndicesExcept(columns, lo + 1, hi, excluded)
  }

  function Min(a: nat, b: nat): nat
  {
    if a < b then a else b
  }

  /** `[col for col in df.columns[7:26] if col != generiek_col]`, as column indices
      in sheet order (the slice stops early on a narrower sheet). */
  function SectorColumns(columns: seq<string>): (cols: seq<nat>)
    requires |columns| > GeneriekColumn
    ensures forall j :: j in cols <==>
      FirstSectorColumn <= j < SectorColumnsEnd && j < |columns| && columns[j] != columns[GeneriekColumn]
    ensures forall a, b :: 0 <= a < b < |cols| ==> cols[a] < cols[b]
    ensures forall a :: 0 <= a < |cols| ==> FirstSectorColumn <= cols[a] < |columns|
  {
    IndicesExcept(columns, FirstSectorColumn, Min(SectorColumnsEnd, |columns|), columns[GeneriekColumn])
  }

  /** The indices `lo .. hi-1`, in order. */
  function IndexRange(lo: nat, hi: nat): (r: seq<nat>)
    ensures forall j :: j in r <==> lo <= j < hi
    ensures forall a, b :: 0 <= a < b < |r| ==> r[a] < r[b]
    ensures forall a :: 0 <= a < |r| ==> lo <= r[a] < hi
    decreases hi - lo
  {
    if lo >= hi then [] else [lo] + IndexRange(lo + 1, hi)
  }

  /** `df.columns[5:]`, as column indices in sheet order. */
  function SubsectorColumns(columns: seq<string>): (cols: seq<nat>)
    ensures forall j :: j in cols <==> FirstSubsectorColumn <= j < |columns|
    ensures forall a, b :: 0 <= a < b < |cols| ==> cols[a] < cols[b]
    ensures forall a :: 0 <= a < |cols| ==> FirstSubsectorColumn <= cols[a] < |columns|
  {
    IndexRange(FirstSubsectorColumn, |columns|)
  }

  // ---------------------------------------------------------------------------
  // Totals
  // ---------------------------------------------------------------------------

  /** The columns `cols` exist in the header and in every row. */
  predicate ColumnsFit(columns: seq<string>, rows: seq<Row>, cols: seq<nat>)
  {
    && RowsOfWidth(rows, |columns|)
    && (forall k :: 0 <= k < |cols| ==> cols[k] < |columns|)
  }

  /** Every chosen column lies to the right of the "Regeling" column. */
  predicate AfterRegeling(cols: seq<nat>)
  {
    forall k :: 0 <= k < |cols| ==> RegelingColumn < cols[k]
  }

  /** `df[col].sum()`: the sum of the numbers in column `j`; empty cells count nothing. */
  function ColumnSum(rows: seq<Row>, j: nat): real
    requires HasColumn(rows, j)
  {
    if rows == [] then 0.0
    else ColumnSum(rows[..|rows| - 1], j) + CellAmount(rows[|rows| - 1][j])
  }

  /** The totals dictionary after the loop over `cols`: one entry per column
      whose sum is not zero, in column order. */
  function NonzeroTotals(columns: seq<string>, rows: seq<Row>, cols: seq<nat>): seq<Item>
    requires ColumnsFit(columns, rows, cols)
  {
    if cols == [] then []
    else
      var j := cols[|cols| - 1];
      var total := ColumnSum(rows, j);
      NonzeroTotals(columns, rows, cols[..|cols| - 1]) + (if total != 0.0 then [Item(columns[j], total)] else [])
  }

  /** An entry is in the totals exactly when it is the nonzero sum of one of the columns. */
  lemma {:induction false} NonzeroTotalsMembers(columns: seq<string>, rows: seq<Row>, cols: seq<nat>, it: Item)
    requires ColumnsFit(columns, rows, cols)
    ensures it in NonzeroTotals(columns, rows, cols) <==>
      exists j :: j in cols && it.name == columns[j] && it.amount == ColumnSum(rows, j) && it.amount != 0.0
  {
    if cols != [] {
      var init := cols[..|cols| - 1];
      var j := cols[|cols| - 1];
      assert cols == init + [j];
      NonzeroTotalsMembers(columns, rows, init, it);
      if exists k :: k in cols && it.name == columns[k] && it.amount == ColumnSum(rows, k) && it.amount != 0.0 {
        var k :| k in cols && it.name == columns[k] && it.amount == ColumnSum(rows, k) && it.amount != 0.0;
        if k != j {
          assert k in init;
        }
      }
    }
  }

  /** A name is a key of the totals exactly when some column of that name has a nonzero sum. */
  lemma NonzeroTotalsKeys(columns: seq<string>, rows: seq<Row>, cols: seq<nat>, n: string)
    requires ColumnsFit(columns, rows, cols)
    ensures n in Names(NonzeroTotals(columns, rows, cols)) <==>
      exists j :: j in cols && n == columns[j] && ColumnSum(rows, j) != 0.0
  {
    var totals := NonzeroTotals(columns, rows, cols);
    if n in Names(totals) {
      var i :| 0 <= i < |totals| && totals[i].name == n;
      NonzeroTotalsMembers(columns, rows, cols, totals[i]);
    }
    if exists j :: j in cols && n == columns[j] && ColumnSum(rows, j) != 0.0 {
      var j :| j in cols && n == columns[j] && ColumnSum(rows, j) != 0.0;
      NonzeroTotalsMembers(columns, rows, cols, Item(n, ColumnSum(rows, j)));
    }
  }

  /** The loop that fills `sector_totals` / `subsector_totals`. */
  method ColumnTotals(columns: seq<string>, rows: seq<Row>, cols: seq<nat>) returns (totals: seq<Item>)
    requires ColumnsFit(columns, rows, cols)
    ensures totals == NonzeroTotals(columns, rows, cols)
  {
    totals := [];
    var i := 0;
    while i < |cols|
      invariant 0 <= i <= |cols|
      invariant totals == NonzeroTotals(columns, rows, cols[..i])
    {
      var col := cols[i];
      var total := ColumnSum(rows, col);
      assert cols[..i + 1][..i] == cols[..i];
      if total != 0.0 {
        totals := totals + [Item(columns[col], total)];
      }
      i := i + 1;
    }
    assert cols[..|cols|] == cols;
  }

  // ---------------------------------------------------------------------------
  // Measure names and details
  // ---------------------------------------------------------------------------

  /** `row.iloc[k]` when it is a string, else "". */
  function TextOrBlank(c: Cell): string
  {
    if c.Str? then c.text else ""
  }

  /** `[p for p in parts if p]`. */
  function NonEmptyParts(parts: seq<string>): (r: seq<string>)
    ensures forall p :: p in r <==> p in parts && p != ""
  {
    if parts == [] then []
    else (if parts[0] != "" then [parts[0]] else []) + NonEmptyParts(parts[1..])
  }

  /** The measure name of a row: the "Regeling" text when that cell is text
      (an empty text gives no name, with no fallback); otherwise the non-empty
      texts of the first three cells joined with " - "; none when there are none. */
  function MeasureName(row: Row): Option<string>
    requires |row| > RegelingColumn
  {
    if row[RegelingColumn].Str? then
      var regeling := row[RegelingColumn].text;
      if regeling != "" then Some(regeling) else None
    else
      var parts := NonEmptyParts([TextOrBlank(row[0]), TextOrBlank(row[1]), TextOrBlank(row[2])]);
      if parts == [] then None else Some(Join(parts, NameSeparator))
  }

  /** The naming rule: a text "Regeling" cell decides alone; otherwise a name
      exists exactly when one of the first three cells holds non-empty text
      (`MeasureNameJoins` gives its value); a name is never empty. */
  lemma MeasureNameRule(row: Row)
    requires |row| > RegelingColumn
    ensures row[RegelingColumn].Str? ==>
      MeasureName(row) == (if row[RegelingColumn].text == "" then None else Some(row[RegelingColumn].text))
    ensures !row[RegelingColumn].Str? ==>
      (MeasureName(row).None? <==> forall k :: 0 <= k < RegelingColumn ==> TextOrBlank(row[k]) == "")
    ensures MeasureName(row).Some? ==> MeasureName(row).value != ""
  {
    if !row[RegelingColumn].Str? {
      var cells := [TextOrBlank(row[0]), TextOrBlank(row[1]), TextOrBlank(row[2])];
      var parts := NonEmptyParts(cells);
      assert cells[0] in cells && cells[1] in cells && cells[2] in cells;
      if parts != [] {
        assert parts[0] in parts;
      }
    }
  }

  /** The non-empty texts among three, in order. */
  lemma NonEmptyPartsOfThree(a: string, b: string, c: string)
    ensures NonEmptyParts([a, b, c]) ==
      (if a != "" then [a] else []) + (if b != "" then [b] else []) + (if c != "" then [c] else [])
  {
    assert [a, b, c][1..] == [b, c] && [b, c][1..] == [c] && [c][1..] == [];
    assert NonEmptyParts([c]) == (if c != "" then [c] else []) + NonEmptyParts([]);
    assert NonEmptyParts([b, c]) == (if b != "" then [b] else []) + NonEmptyParts([c]);
    assert NonEmptyParts([a, b, c]) == (if a != "" then [a] else []) + NonEmptyParts([b, c]);
  }

  /** The fallback name spelled out: the non-empty texts of the first three
      cells, in column order, with " - " between consecutive ones. */
  lemma {:induction false} MeasureNameJoins(row: Row)
    requires |row| > RegelingColumn
    ensures !row[RegelingColumn].Str? ==>
      var a, b, c := TextOrBlank(row[0]), TextOrBlank(row[1]), TextOrBlank(row[2]);
      && (a != "" && b != "" && c != "" ==> MeasureName(row) == Some(a + NameSeparator + b + NameSeparator + c))
      && (a != "" && b != "" && c == "" ==> MeasureName(row) == Some(a + NameSeparator + b))
      && (a != "" && b == "" && c != "" ==> MeasureName(row) == Some(a + NameSeparator + c))
      && (a == "" && b != "" && c != "" ==> MeasureName(row) == Some(b + NameSeparator + c))
      && (a != "" && b == "" && c == "" ==> MeasureName(row) == Some(a))
      && (a == "" && b != "" && c == "" ==> MeasureName(row) == Some(b))
      && (a == "" && b == "" && c != "" ==> MeasureName(row) == Some(c))
  {
    var a, b, c := TextOrBlank(row[0]), TextOrBlank(row[1]), TextOrBlank(row[2]);
    assert [TextOrBlank(row[0]), TextOrBlank(row[1]), TextOrBlank(row[2])] == [a, b, c];
    var parts := NonEmptyParts([a, b, c]);
    NonEmptyPartsOfThree(a, b, c);
    JoinAppend([a], b, NameSeparator);
    JoinAppend([a], c, NameSeparator);
    JoinAppend([b], c, NameSeparator);
    JoinAppend([a, b], c, NameSeparator);
    if a != "" && b != "" && c != "" {
      assert parts == [a] + [b] + [c] == [a, b] + [c];
    } else if a != "" && b != "" {
      assert parts == [a] + [b] + [] == [a] + [b];
    } else if a != "" && c != "" {
      assert parts == [a] + [] + [c] == [a] + [c];
    } else if b != "" && c != "" {
      assert parts == [] + [b] + [c] == [b] + [c];
    } else if a != "" {
      assert parts == [a] + [] + [] == [a];
    } else if b != "" {
      assert parts == [] + [b] + [] == [b];
    } else if c != "" {
      assert parts == [] + [] + [c] == [c];
    }
  }

  /** The measure a row records under column `j`, if any: a nonzero number and a name. */
  function RowMeasure(row: Row, j: nat): seq<Item>
    requires RegelingColumn < j < |row|
  {
    var amount := row[j];
    if amount.Num? && amount.value != 0.0 && MeasureName(row).Some? then
      [Item(MeasureName(row).value, amount.value)]
    else []
  }

  /** The `measures` list of column `j`, in row order. */
  function MeasuresOf(rows: seq<Row>, j: nat): seq<Item>
    requires HasColumn(rows, j) && RegelingColumn < j
  {
    if rows == [] then []
    else MeasuresOf(rows[..|rows| - 1], j) + RowMeasure(rows[|rows| - 1], j)
  }

  /** Every recorded measure has a nonzero amount and a non-empty name. */
  lemma {:induction false} MeasuresAreRecorded(rows: seq<Row>, j: nat)
    requires HasColumn(rows, j) && RegelingColumn < j
    ensures forall m :: m in MeasuresOf(rows, j) ==> m.amount != 0.0 && m.name != ""
  {
    if rows != [] {
      MeasuresAreRecorded(rows[..|rows| - 1], j);
      MeasureNameRule(rows[|rows| - 1]);
    }
  }

  /** Row `row` records measure `m` under column `j`. */
  predicate RecordsMeasure(row: Row, j: nat, m: Item)
    requires RegelingColumn < j < |row|
  {
    row[j] == Num(m.amount) && m.amount != 0.0 && MeasureName(row) == Some(m.name)
  }

  /** A measure is recorded exactly when some row holds that nonzero amount in
      column `j` and has that name. */
  lemma {:induction false} MeasuresComeFromRows(rows: seq<Row>, j: nat, m: Item)
    requires HasColumn(rows, j) && RegelingColumn < j
    ensures m in MeasuresOf(rows, j) <==> exists i :: 0 <= i < |rows| && RecordsMeasure(rows[i], j, m)
  {
    if rows != [] {
      var init := rows[..|rows| - 1];
      var last := rows[|rows| - 1];
      MeasuresComeFromRows(init, j, m);
      assert m in RowMeasure(last, j) <==> RecordsMeasure(last, j, m);
      if exists i :: 0 <= i < |rows| && RecordsMeasure(rows[i], j, m) {
        var i :| 0 <= i < |rows| && RecordsMeasure(rows[i], j, m);
        if i < |init| {
          assert init[i] == rows[i];
        }
      }
      if m in MeasuresOf(init, j) {
        var i :| 0 <= i < |init| && RecordsMeasure(init[i], j, m);
        assert rows[i] == init[i];
      }
    }
  }

  /** Measures keep the row order: the measures of two blocks of rows are those
      of the first block followed by those of the second. */
  lemma {:induction false} MeasuresKeepRowOrder(a: seq<Row>, b: seq<Row>, j: nat)
    requires HasColumn(a, j) && HasColumn(b, j) && RegelingColumn < j
    ensures MeasuresOf(a + b, j) == MeasuresOf(a, j) + MeasuresOf(b, j)
    decreases |b|
  {
    if b == [] {
      assert a + b == a;
    } else {
      var b' := b[..|b| - 1];
      assert (a + b)[..|a + b| - 1] == a + b';
      MeasuresKeepRowOrder(a, b', j);
    }
  }

  /** The inner loop over `df.iterrows()` that builds `measures` for column `j`. */
  method ColumnMeasures(rows: seq<Row>, j: nat) returns (measures: seq<Item>)
    requires HasColumn(rows, j) && RegelingColumn < j
    ensures measures == MeasuresOf(rows, j)
  {
    measures := [];
    var i := 0;
    while i < |rows|
      invariant 0 <= i <= |rows|
      invariant measures == MeasuresOf(rows[..i], j)
    {
      var row := rows[i];
      assert rows[..i + 1][..i] == rows[..i];
      var amount := row[j];
      if amount.Num? && amount.value != 0.0 {
        var measureName := MeasureName(row);
        if measureName.Some? {
          measures := measures + [Item(measureName.value, amount.value)];
        }
      }
      i := i + 1;
    }
    assert rows[..|rows|] == rows;
  }

  /** The details dictionary after the loop over `cols`: the measures of every
      column whose name is a key of the totals. */
  function DetailsOf(columns: seq<string>, rows: seq<Row>, cols: seq<nat>, keys: set<string>): map<string, seq<Item>>
    requires ColumnsFit(columns, rows, cols) && AfterRegeling(cols)
  {
    if cols == [] then map[]
    else
      var j := cols[|cols| - 1];
      var d := DetailsOf(columns, rows, cols[..|cols| - 1], keys);
      if columns[j] in keys then d[columns[j] := MeasuresOf(rows, j)] else d
  }

  /** The details have a key for exactly the columns whose name is in `keys`,
      and under each such name the measures of that column. */
  lemma {:induction false} DetailsOfContents(columns: seq<string>, rows: seq<Row>, cols: seq<nat>, keys: set<string>)
    requires ColumnsFit(columns, rows, cols) && AfterRegeling(cols)
    requires forall a, b :: 0 <= a < b < |columns| ==> columns[a] != columns[b]
    ensures DetailsOf(columns, rows, cols, keys).Keys == (set j | j in cols && columns[j] in keys :: columns[j])
    ensures forall j :: j in cols && columns[j] in keys ==>
      DetailsOf(columns, rows, cols, keys)[columns[j]] == MeasuresOf(rows, j)
  {
    if cols != [] {
      var init := cols[..|cols| - 1];
      var last := cols[|cols| - 1];
      assert cols == init + [last];
      assert forall j :: j in cols <==> j in init || j == last;
      DetailsOfContents(columns, rows, init, keys);
    }
  }

  /** The loop that fills `sector_details` / `subsector_details`. */
  method ColumnDetails(columns: seq<string>, rows: seq<Row>, cols: seq<nat>, totals: seq<Item>)
    returns (details: map<string, seq<Item>>)
    requires ColumnsFit(columns, rows, cols) && AfterRegeling(cols)
    ensures details == DetailsOf(columns, rows, cols, Names(totals))
  {
    details := map[];
    var i := 0;
    while i < |cols|
      invariant 0 <= i <= |cols|
      invariant details == DetailsOf(columns, rows, cols[..i], Names(totals))
    {
      var col := cols[i];
      assert cols[..i + 1][..i] == cols[..i];
      if columns[col] in Names(totals) {
        var measures := ColumnMeasures(rows, col);
        details := details[columns[col] := measures];
      }
      i := i + 1;
    }
    assert cols[..|cols|] == cols;
  }

  // ---------------------------------------------------------------------------
  // The two sheets
  // ---------------------------------------------------------------------------

  /** The rows of the "Beleid" sheet that the totals are taken from. */
  function SectorRows(sh: Sheet): (rows: seq<Row>)
    requires WellFormed(sh) && |sh.columns| > GeneriekColumn
    ensures RowsOfWidth(rows, |sh.columns|)
    ensures forall r: Row :: r in rows ==> r in sh.rows && !r[UnallocatedColumn].Num?
    ensures exists k ::
      (&& 0 <= k <= |sh.rows|
       && (forall i :: 0 <= i < k ==> !IsBlankRow(sh.rows[i]))
       && (k < |sh.rows| ==> IsBlankRow(sh.rows[k]))
       && rows == DropUnallocated(sh.rows[..k]))
  {
    var kept := RowsBefore(sh.rows, IsBlankRow);
    assert kept == sh.rows[..|kept|];
    DropUnallocatedWidth(kept, |sh.columns|);
    DropUnallocated(kept)
  }

  /** The rows of the "Uitsplitsing industrie" sheet that the totals are taken from. */
  function SubsectorRows(sh: Sheet): (rows: seq<Row>)
    requires WellFormed(sh)
    ensures RowsOfWidth(rows, |sh.columns|)
    ensures rows <= sh.rows
    ensures forall i :: 0 <= i < |rows| ==> !IsSumRow(rows[i])
    ensures |rows| < |sh.rows| ==> IsSumRow(sh.rows[|rows|])
  {
    var kept := RowsBefore(sh.rows, IsSumRow);
    assert kept == sh.rows[..|kept|];
    kept
  }

  /** Totals and details over chosen rows and columns. */
  function TablesOf(columns: seq<string>, rows: seq<Row>, cols: seq<nat>): Extracted
    requires ColumnsFit(columns, rows, cols) && AfterRegeling(cols)
  {
    var totals := NonzeroTotals(columns, rows, cols);
    Extracted(totals, DetailsOf(columns, rows, cols, Names(totals)))
  }

  /** What `extract_sector_data` computes from the "Beleid" sheet; a sheet with
      fewer than six columns stops at `df.columns[4]` or `df.columns[5]`. */
  function SectorTablesOf(sh: Sheet): (r: Result<Extracted, ExtractError>)
    requires WellFormed(sh)
    ensures r.Failure? <==> |sh.columns| <= GeneriekColumn
    ensures r.Failure? ==> r.error == MissingColumn(if |sh.columns| <= UnallocatedColumn then UnallocatedColumn else GeneriekColumn)
  {
    if |sh.columns| <= UnallocatedColumn then Failure(MissingColumn(UnallocatedColumn))
    else if |sh.columns| <= GeneriekColumn then Failure(MissingColumn(GeneriekColumn))
    else
      var rows := SectorRows(sh);
      Success(TablesOf(sh.columns, rows, SectorColumns(sh.columns)))
  }

  /** What `extract_industrie_subsectors` computes from its sheet. */
  function SubsectorTablesOf(sh: Sheet): Extracted
    requires WellFormed(sh)
  {
    TablesOf(sh.columns, SubsectorRows(sh), SubsectorColumns(sh.columns))
  }

  /** The document written to `sector_data.json`. */
  function ChartDataOf(beleid: Sheet, industrie: Sheet): Result<Dataset, ExtractError>
    requires WellFormed(beleid) && WellFormed(industrie)
  {
    match SectorTablesOf(beleid)
    case Failure(e) => Failure(e)
    case Success(sector) =>
      var sub := SubsectorTablesOf(industrie);
      Success(Dataset(sector.totals, sector.details,
        Some(Subsectors(Some(sub.totals), Some(sub.details)))))
  }

  /** The body of `extract_industrie_subsectors`. */
  method ExtractIndustrieSubsectors(sh: Sheet) returns (r: Extracted)
    requires WellFormed(sh)
    ensures r == SubsectorTablesOf(sh)
  {
    var rows := TruncateAt(sh.rows, IsSumRow);
    var subsectorColumns := SubsectorColumns(sh.columns);
    assert rows == sh.rows[..|rows|];
    var subsectorTotals := ColumnTotals(sh.columns, rows, subsectorColumns);
    var subsectorDetails := ColumnDetails(sh.columns, rows, subsectorColumns, subsectorTotals);
    r := Extracted(subsectorTotals, subsectorDetails);
  }

  /** The body of `extract_sector_data`, given both sheets of the workbook. */
  method ExtractSectorData(beleid: Sheet, industrie: Sheet) returns (r: Result<Dataset, ExtractError>)
    requires WellFormed(beleid) && WellFormed(industrie)
    ensures r == ChartDataOf(beleid, industrie)
  {
    var rows := TruncateAt(beleid.rows, IsBlankRow);
    if |beleid.columns| <= UnallocatedColumn {
      return Failure(MissingColumn(UnallocatedColumn));
    }
    if |beleid.columns| <= GeneriekColumn {
      return Failure(MissingColumn(GeneriekColumn));
    }
    assert rows == beleid.rows[..|rows|];
    rows := DropUnallocated(rows);
    assert rows == SectorRows(beleid);
    var sectorColumns := SectorColumns(beleid.columns);
    assert ColumnsFit(beleid.columns, rows, sectorColumns) && AfterRegeling(sectorColumns);
    var sectorTotals := ColumnTotals(beleid.columns, rows, sectorColumns);
    var sectorDetails := ColumnDetails(beleid.columns, rows, sectorColumns, sectorTotals);
    assert SectorTablesOf(beleid) == Success(Extracted(sectorTotals, sectorDetails));
    var industrieData := ExtractIndustrieSubsectors(industrie);
    r := Success(Dataset(sectorTotals, sectorDetails,
      Some(Subsectors(Some(industrieData.totals), Some(industrieData.details)))));
  }

  // ---------------------------------------------------------------------------
  // Properties of the extracted document
  // ---------------------------------------------------------------------------

  /** The details have exactly the keys of the totals, and under each key the
      measures of the column of that name. */
  lemma {:induction false} TablesKeysAgree(columns: seq<string>, rows: seq<Row>, cols: seq<nat>)
    requires ColumnsFit(columns, rows, cols) && AfterRegeling(cols)
    requires forall a, b :: 0 <= a < b < |columns| ==> columns[a] != columns[b]
    ensures TablesOf(columns, rows, cols).details.Keys == Names(TablesOf(columns, rows, cols).totals)
    ensures forall j :: j in cols && columns[j] in Names(TablesOf(columns, rows, cols).totals) ==>
      TablesOf(columns, rows, cols).details[columns[j]] == MeasuresOf(rows, j)
  {
    var totals := NonzeroTotals(columns, rows, cols);
    DetailsOfContents(columns, rows, cols, Names(totals));
    forall n | n in Names(totals) ensures n in (set j | j in cols && columns[j] in Names(totals) :: columns[j]) {
      NonzeroTotalsKeys(columns, rows, cols, n);
    }
  }

  /** Every recorded measure of the tables has a nonzero amount and a name. */
  lemma TablesMeasuresRecorded(columns: seq<string>, rows: seq<Row>, cols: seq<nat>)
    requires ColumnsFit(columns, rows, cols) && AfterRegeling(cols)
    requires forall a, b :: 0 <= a < b < |columns| ==> columns[a] != columns[b]
    ensures var t := TablesOf(columns, rows, cols);
      forall k, m :: k in t.details && m in t.details[k] ==> m.amount != 0.0 && m.name != ""
  {
    var t := TablesOf(columns, rows, cols);
    TablesKeysAgree(columns, rows, cols);
    forall k, m | k in t.details && m in t.details[k] ensures m.amount != 0.0 && m.name != "" {
      NonzeroTotalsKeys(columns, rows, cols, k);
      var j :| j in cols && k == columns[j] && ColumnSum(rows, j) != 0.0;
      MeasuresAreRecorded(rows, j);
    }
  }

  /** The sector totals of the "Beleid" sheet: a key is present exactly when a
      column among H..Z other than "Generiek" carries that name and has a nonzero
      sum over the kept rows; the "Generiek" column never becomes a sector. */
  lemma SectorTotalsKeys(sh: Sheet, n: string)
    requires WellFormed(sh) && |sh.columns| > GeneriekColumn
    ensures var t := SectorTablesOf(sh).value;
      n in Names(t.totals) <==>
        exists j :: FirstSectorColumn <= j < SectorColumnsEnd && j < |sh.columns|
          && n == sh.columns[j] && n != sh.columns[GeneriekColumn]
          && ColumnSum(SectorRows(sh), j) != 0.0
    ensures sh.columns[GeneriekColumn] !in Names(SectorTablesOf(sh).value.totals)
  {
    var rows := SectorRows(sh);
    var cols := SectorColumns(sh.columns);
    NonzeroTotalsKeys(sh.columns, rows, cols, n);
    NonzeroTotalsKeys(sh.columns, rows, cols, sh.columns[GeneriekColumn]);
  }

  /** The subsector totals: a key is present exactly when a column at index 5
      or beyond carries that name and has a nonzero sum over the rows before "SOM". */
  lemma SubsectorTotalsKeys(sh: Sheet, n: string)
    requires WellFormed(sh)
    ensures n in Names(SubsectorTablesOf(sh).totals) <==>
      exists j :: FirstSubsectorColumn <= j < |sh.columns| && n == sh.columns[j]
        && ColumnSum(SubsectorRows(sh), j) != 0.0
  {
    NonzeroTotalsKeys(sh.columns, SubsectorRows(sh), SubsectorColumns(sh.columns), n);
  }

  /** Every total of the extracted document is nonzero. */
  lemma {:induction false} TotalsAreNonzero(columns: seq<string>, rows: seq<Row>, cols: seq<nat>)
    requires ColumnsFit(columns, rows, cols)
    ensures forall it :: it in NonzeroTotals(columns, rows, cols) ==> it.amount != 0.0
  {
    forall it | it in NonzeroTotals(columns, rows, cols) ensures it.amount != 0.0 {
      NonzeroTotalsMembers(columns, rows, cols, it);
    }
  }

  /** The shape the chart relies on: the details have exactly the keys of the
      totals, every total is nonzero, and every measure is named and nonzero. */
  predicate WellShaped(t: Extracted)
  {
    && t.details.Keys == Names(t.totals)
    && (forall it :: it in t.totals ==> it.amount != 0.0)
    && (forall k, m :: k in t.details && m in t.details[k] ==> m.amount != 0.0 && m.name != "")
  }

  lemma TablesWellShaped(columns: seq<string>, rows: seq<Row>, cols: seq<nat>)
    requires ColumnsFit(columns, rows, cols) && AfterRegeling(cols)
    requires forall a, b :: 0 <= a < b < |columns| ==> columns[a] != columns[b]
    ensures WellShaped(TablesOf(columns, rows, cols))
  {
    TablesKeysAgree(columns, rows, cols);
    TablesMeasuresRecorded(columns, rows, cols);
    TotalsAreNonzero(columns, rows, cols);
  }

  /** The document the script writes: it fails only on a "Beleid" sheet of fewer
      than six columns; otherwise both the sector tables and the subsector tables
      are well shaped, the subsector tables are stored under `industrie_subsectors`,
      and "Generiek" is not a sector. */
  lemma ChartDataProperties(beleid: Sheet, industrie: Sheet)
    requires WellFormed(beleid) && WellFormed(industrie)
    ensures ChartDataOf(beleid, industrie).Failure? <==> |beleid.columns| <= GeneriekColumn
    ensures ChartDataOf(beleid, industrie).Success? ==>
      var d := ChartDataOf(beleid, industrie).value;
      var sub := SubsectorTablesOf(industrie);
      && WellShaped(Extracted(d.sectorTotals, d.sectorDetails))
      && WellShaped(sub)
      && d.industrieSubsectors == Some(Subsectors(Some(sub.totals), Some(sub.details)))
      && beleid.columns[GeneriekColumn] !in Names(d.sectorTotals)
  {
    var subRows := SubsectorRows(industrie);
    var subCols := SubsectorColumns(industrie.columns);
    TablesWellShaped(industrie.columns, subRows, subCols);
    if |beleid.columns| > GeneriekColumn {
      var rows := SectorRows(beleid);
      var cols := SectorColumns(beleid.columns);
      TablesWellShaped(beleid.columns, rows, cols);
      SectorTotalsKeys(beleid, beleid.columns[GeneriekColumn]);
      assert SectorTablesOf(beleid) == Success(TablesOf(beleid.columns, rows, cols));
    }
  }
}
