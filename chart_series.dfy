/**
 * The pure transforms of the sector chart (chart.js): the sort comparator,
 * the stable sort it drives, the per-bar colour, the three label formatters,
 * and the parallel arrays handed to the charting library for one view.
 */
module ChartSeries {
  import opened Text
  import opened SectorData

  /** Bar colour for an amount of zero or more (IPE red). */
  const PositiveColor: string := "#d63f44"
  /** Bar colour for a negative amount (IPE aqua). */
  const NegativeColor: string := "#4790b1"

  /** Measure labels longer than this are truncated. */
  const MaxLabelLength: nat := 40
  /** Characters kept from a truncated measure label. */
  const KeptLength: nat := 37
  const Ellipsis: string := "..."

  function Abs(x: real): real
  {
    if x < 0.0 then -x else x
  }

  // ---------------------------------------------------------------------------
  // Ordering
  // ---------------------------------------------------------------------------

  /** The comparator passed to `Array.prototype.sort`: negative puts `a` first,
      positive puts `b` first, zero keeps the input order. */
  function Compare(a: real, b: real): real
  {
    var absA := Abs(a);
    var absB := Abs(b);
    if absB != absA then absB - absA else b - a
  }

  /** `a` may stand before `b` in the sorted series: larger magnitude first, and
      among equal magnitudes the larger signed value first. */
  predicate Precedes(a: real, b: real)
  {
    Abs(a) > Abs(b) || (Abs(a) == Abs(b) && a >= b)
  }

  /** The comparator is consistent: its sign is the order Precedes describes,
      it is antisymmetric, and it reports a tie only for equal amounts. */
  lemma CompareIsOrder(a: real, b: real)
    ensures Compare(a, b) <= 0.0 <==> Precedes(a, b)
    ensures Compare(a, b) == -Compare(b, a)
    ensures Compare(a, b) == 0.0 <==> a == b
  {
  }

  /** Precedes is a total order on amounts. */
  lemma PrecedesIsTotalOrder(a: real, b: real, c: real)
    ensures Precedes(a, a)
    ensures Precedes(a, b) || Precedes(b, a)
    ensures Precedes(a, b) && Precedes(b, a) ==> a == b
    ensures Precedes(a, b) && Precedes(b, c) ==> Precedes(a, c)
  {
  }

  predicate SortedByMagnitude(s: seq<Item>)
  {
    forall i, j :: 0 <= i < j < |s| ==> Precedes(s[i].amount, s[j].amount)
  }

  /** Places `x` before the first element it does not sort after. */
  function Insert(x: Item, s: seq<Item>): (r: seq<Item>)
    ensures |r| == |s| + 1
  {
    if s == [] || Compare(x.amount, s[0].amount) <= 0.0 then [x] + s
    else
      assert s == [s[0]] + s[1..];
      [s[0]] + Insert(x, s[1..])
  }

  /** Inserting adds exactly `x`. */
  lemma {:induction false} InsertPermutes(x: Item, s: seq<Item>)
    ensures multiset(Insert(x, s)) == multiset(s) + multiset{x}
  {
    if s != [] && Compare(x.amount, s[0].amount) > 0.0 {
      InsertPermutes(x, s[1..]);
      assert s == [s[0]] + s[1..];
    }
  }

  /** Every item of `s` may follow `y`. */
  predicate AllFollow(y: Item, s: seq<Item>)
  {
    forall j :: 0 <= j < |s| ==> Precedes(y.amount, s[j].amount)
  }

  lemma {:induction false} InsertFollows(y: Item, x: Item, s: seq<Item>)
    requires AllFollow(y, s) && Precedes(y.amount, x.amount)
    ensures AllFollow(y, Insert(x, s))
  {
    var r := Insert(x, s);
    InsertPermutes(x, s);
    forall j | 0 <= j < |r| ensures Precedes(y.amount, r[j].amount) {
      assert r[j] in multiset(s) + multiset{x};
      if r[j] != x {
        assert r[j] in s;
      }
    }
  }

  lemma {:induction false} InsertSorted(x: Item, s: seq<Item>)
    requires SortedByMagnitude(s)
    ensures SortedByMagnitude(Insert(x, s))
  {
    if s == [] || Compare(x.amount, s[0].amount) <= 0.0 {
      CompareIsOrder(x.amount, if s == [] then 0.0 else s[0].amount);
      forall j | 0 <= j < |s| ensures Precedes(x.amount, s[j].amount) {
        PrecedesIsTotalOrder(x.amount, s[0].amount, s[j].amount);
      }
      assert Insert(x, s) == [x] + s;
    } else {
      CompareIsOrder(x.amount, s[0].amount);
      PrecedesIsTotalOrder(x.amount, s[0].amount, x.amount);
      var rest := s[1..];
      assert SortedByMagnitude(rest);
      InsertSorted(x, rest);
      assert AllFollow(s[0], rest);
      InsertFollows(s[0], x, rest);
      assert Insert(x, s) == [s[0]] + Insert(x, rest);
    }
  }

  /** The model of `[...items].sort(comparator)`: an insertion sort, stable like
      every conforming `Array.prototype.sort`. */
  function Sort(s: seq<Item>): (r: seq<Item>)
    ensures SortedByMagnitude(r)
    ensures multiset(r) == multiset(s)
    ensures |r| == |s|
  {
    if s == [] then []
    else
      assert s == [s[0]] + s[1..];
      InsertSorted(s[0], Sort(s[1..]));
      InsertPermutes(s[0], Sort(s[1..]));
      Insert(s[0], Sort(s[1..]))
  }

  /** The items of `s` whose amount is `v`, in order. */
  function WithAmount(s: seq<Item>, v: real): seq<Item>
  {
    if s == [] then []
    else (if s[0].amount == v then [s[0]] else []) + WithAmount(s[1..], v)
  }

  lemma {:induction false} WithAmountInsert(x: Item, s: seq<Item>, v: real)
    ensures WithAmount(Insert(x, s), v) == (if x.amount == v then [x] else []) + WithAmount(s, v)
  {
    var own := if x.amount == v then [x] else [];
    if s == [] || Compare(x.amount, s[0].amount) <= 0.0 {
      assert Insert(x, s) == [x] + s;
      assert ([x] + s)[1..] == s;
    } else {
      var head := if s[0].amount == v then [s[0]] else [];
      CompareIsOrder(x.amount, s[0].amount);
      assert own == [] || head == [];
      var t := Insert(x, s[1..]);
      assert Insert(x, s) == [s[0]] + t;
      assert ([s[0]] + t)[1..] == t;
      assert WithAmount([s[0]] + t, v) == head + WithAmount(t, v);
      WithAmountInsert(x, s[1..], v);
      assert WithAmount(s, v) == head + WithAmount(s[1..], v);
    }
  }

  /** The sort is stable: items with the same amount keep their input order. */
  lemma {:induction false} SortIsStable(s: seq<Item>, v: real)
    ensures WithAmount(Sort(s), v) == WithAmount(s, v)
  {
    if s != [] {
      SortIsStable(s[1..], v);
      WithAmountInsert(s[0], Sort(s[1..]), v);
    }
  }

  /** Of two amounts with the same magnitude the positive one sorts first: for
      totals 12.5 and -12.5, 12.5 comes first. */
  lemma TieGoesToPositive(x: real)
    requires x > 0.0
    ensures Compare(x, -x) < 0.0 && Compare(-x, x) > 0.0
    ensures Precedes(x, -x) && !Precedes(-x, x)
  {
  }

  // ---------------------------------------------------------------------------
  // Colours and labels
  // ---------------------------------------------------------------------------

  /** `amount >= 0 ? '#d63f44' : '#4790b1'`. */
  function BarColor(amount: real): string
  {
    if amount >= 0.0 then PositiveColor else NegativeColor
  }

  predicate IsUpperLetter(c: char)
  {
    'A' <= c <= 'Z'
  }

  predicate IsDigit(c: char)
  {
    '0' <= c <= '9'
  }

  /** `s` starts with what `/^[A-Z]\s+/` matches. */
  predicate HasSectorPrefix(s: string)
  {
    |s| >= 2 && IsUpperLetter(s[0]) && s[1] in JsWhitespace
  }

  /** `sector.replace(/^[A-Z]\s+/, '').trim()`: drops a leading capital letter
      and the whitespace after it, then trims. */
  function FormatSectorName(s: string): (r: string)
    ensures IsTrimmed(r, JsWhitespace)
    ensures HasSectorPrefix(s) ==> r == Trim(s[1..], JsWhitespace)
    ensures !HasSectorPrefix(s) ==> r == Trim(s, JsWhitespace)
  {
    if HasSectorPrefix(s) then
      TrimAfterTrimStart(s[1..], JsWhitespace);
      Trim(TrimStart(s[1..], JsWhitespace), JsWhitespace)
    else
      Trim(s, JsWhitespace)
  }

  /** The length of the run of decimal digits that starts `s`. */
  function LeadingDigits(s: string): (k: nat)
    ensures k <= |s|
    ensures forall i :: 0 <= i < k ==> IsDigit(s[i])
    ensures k < |s| ==> !IsDigit(s[k])
  {
    if s != [] && IsDigit(s[0]) then 1 + LeadingDigits(s[1..]) else 0
  }

  /** `s` starts with what `/^\d+\s+/` matches. */
  predicate HasSubsectorPrefix(s: string)
  {
    var k := LeadingDigits(s);
    0 < k < |s| && s[k] in JsWhitespace
  }

  /** The regular expression `/^\d+\s+/` matches at the start of `s` exactly when
      HasSubsectorPrefix holds: the digit run it consumes must be the longest one. */
  lemma SubsectorPrefixIsRegexMatch(s: string)
    ensures HasSubsectorPrefix(s) <==>
      exists k :: 0 < k < |s| && (forall i :: 0 <= i < k ==> IsDigit(s[i])) && s[k] in JsWhitespace
  {
    var n := LeadingDigits(s);
    if exists k :: 0 < k < |s| && (forall i :: 0 <= i < k ==> IsDigit(s[i])) && s[k] in JsWhitespace {
      var k :| 0 < k < |s| && (forall i :: 0 <= i < k ==> IsDigit(s[i])) && s[k] in JsWhitespace;
      assert !IsDigit(s[k]);
      assert k == n;
    }
  }

  /** `subsector.replace(/^\d+\s+/, '').trim()`: drops a leading number and the
      whitespace after it, then trims. */
  function FormatSubsectorName(s: string): (r: string)
    ensures IsTrimmed(r, JsWhitespace)
    ensures HasSubsectorPrefix(s) ==> r == Trim(s[LeadingDigits(s)..], JsWhitespace)
    ensures !HasSubsectorPrefix(s) ==> r == Trim(s, JsWhitespace)
  {
    var k := LeadingDigits(s);
    if HasSubsectorPrefix(s) then
      TrimAfterTrimStart(s[k..], JsWhitespace);
      Trim(TrimStart(s[k..], JsWhitespace), JsWhitespace)
    else
      Trim(s, JsWhitespace)
  }

  /** A label that is already clean (no prefix, nothing to trim) is returned unchanged. */
  lemma CleanLabelsUnchanged(s: string)
    requires IsTrimmed(s, JsWhitespace)
    ensures !HasSectorPrefix(s) ==> FormatSectorName(s) == s
    ensures !HasSubsectorPrefix(s) ==> FormatSubsectorName(s) == s
  {
    TrimOfTrimmed(s, JsWhitespace);
  }

  /** Truncates names longer than 40 characters to their first 37 and "...". */
  function FormatMeasureName(m: string): (r: string)
    ensures |r| <= MaxLabelLength
    ensures |m| <= MaxLabelLength ==> r == m
    ensures |m| > MaxLabelLength ==> |r| == MaxLabelLength && r[..KeptLength] == m[..KeptLength] && r[KeptLength..] == Ellipsis
  {
    if |m| > MaxLabelLength then m[..KeptLength] + Ellipsis else m
  }

  /** A truncated label is not truncated again. */
  lemma FormatMeasureNameIdempotent(m: string)
    ensures FormatMeasureName(FormatMeasureName(m)) == FormatMeasureName(m)
  {
  }

  // ---------------------------------------------------------------------------
  // The series of one chart view
  // ---------------------------------------------------------------------------

  /** Which formatter a view applies to its bar labels and tooltip titles. */
  datatype Labeling = SectorLabels | SubsectorLabels | MeasureLabels

  /** The bar label of a view. */
  function Label(kind: Labeling, name: string): string
  {
    match kind
    case SectorLabels => FormatSectorName(name)
    case SubsectorLabels => FormatSubsectorName(name)
    case MeasureLabels => FormatMeasureName(name)
  }

  /** The tooltip title (`fullNames`) of a view: measure views show the untruncated name. */
  function FullName(kind: Labeling, name: string): string
  {
    match kind
    case SectorLabels => FormatSectorName(name)
    case SubsectorLabels => FormatSubsectorName(name)
    case MeasureLabels => name
  }

  /** The parallel arrays of one chart: `labels`, `fullNames`, the original keys
      (`originalSectors`, `originalSubsectors`, or the measure names), `data` and
      `backgroundColor`. */
  datatype Series = Series(
    labels: seq<string>,
    fullNames: seq<string>,
    keys: seq<string>,
    amounts: seq<real>,
    colors: seq<string>)

  /** The key and amount at each bar index. */
  function Entries(r: Series): seq<Item>
    requires |r.keys| == |r.amounts|
  {
    seq(|r.keys|, i requires 0 <= i < |r.keys| => Item(r.keys[i], r.amounts[i]))
  }

  /** The parallel arrays of an already sorted entry list. */
  function SeriesOf(sorted: seq<Item>, kind: Labeling): (r: Series)
    ensures |r.labels| == |r.fullNames| == |r.keys| == |r.amounts| == |r.colors| == |sorted|
    ensures Entries(r) == sorted
    ensures forall i :: 0 <= i < |r.keys| ==>
      r.labels[i] == Label(kind, r.keys[i]) && r.fullNames[i] == FullName(kind, r.keys[i])
    ensures forall i :: 0 <= i < |r.amounts| ==> r.colors[i] == BarColor(r.amounts[i])
  {
    var r := Series(
      seq(|sorted|, i requires 0 <= i < |sorted| => Label(kind, sorted[i].name)),
      seq(|sorted|, i requires 0 <= i < |sorted| => FullName(kind, sorted[i].name)),
      seq(|sorted|, i requires 0 <= i < |sorted| => sorted[i].name),
      seq(|sorted|, i requires 0 <= i < |sorted| => sorted[i].amount),
      seq(|sorted|, i requires 0 <= i < |sorted| => BarColor(sorted[i].amount)));
    assert Entries(r) == sorted;
    r
  }

  /** Sorts the entries of a view and derives its parallel arrays. */
  function BuildSeries(items: seq<Item>, kind: Labeling): (r: Series)
    ensures |r.labels| == |r.fullNames| == |r.keys| == |r.amounts| == |r.colors| == |items|
  {
    SeriesOf(Sort(items), kind)
  }

  /** The bars of a view are in comparator order: larger magnitudes first and,
      at equal magnitude, the positive amount first; bar `i` shows key `i` with
      its own amount from the entries. */
  lemma BuildSeriesIsSorted(items: seq<Item>, kind: Labeling)
    ensures var r := BuildSeries(items, kind);
      && (forall i :: 0 <= i < |r.amounts| - 1 ==>
            Abs(r.amounts[i]) > Abs(r.amounts[i + 1]) ||
            (Abs(r.amounts[i]) == Abs(r.amounts[i + 1]) && r.amounts[i] >= r.amounts[i + 1]))
      && (forall i :: 0 <= i < |r.keys| ==> Item(r.keys[i], r.amounts[i]) in items)
  {
    var sorted := Sort(items);
    var r := SeriesOf(sorted, kind);
    SortedAmounts(sorted, r);
  }

  /** The bars of a view are a permutation of its entries, and entries with
      equal amounts keep their input order. */
  lemma BuildSeriesPermutes(items: seq<Item>, kind: Labeling)
    ensures var r := BuildSeries(items, kind);
      && multiset(Entries(r)) == multiset(items)
      && (forall v :: WithAmount(Entries(r), v) == WithAmount(items, v))
  {
    StableForAll(items);
  }

  /** Each bar's label and tooltip title are formatted for the view from its
      key, and its colour is given by the sign of its amount. */
  lemma BuildSeriesLabels(items: seq<Item>, kind: Labeling)
    ensures var r := BuildSeries(items, kind);
      && (forall i :: 0 <= i < |r.keys| ==>
            r.labels[i] == Label(kind, r.keys[i]) && r.fullNames[i] == FullName(kind, r.keys[i]))
      && (forall i :: 0 <= i < |r.amounts| ==>
            (r.colors[i] == PositiveColor <==> r.amounts[i] >= 0.0) &&
            (r.colors[i] == NegativeColor <==> r.amounts[i] < 0.0))
  {
    var r := SeriesOf(Sort(items), kind);
    forall i | 0 <= i < |r.amounts|
      ensures (r.colors[i] == PositiveColor <==> r.amounts[i] >= 0.0) &&
              (r.colors[i] == NegativeColor <==> r.amounts[i] < 0.0)
    {
      assert r.colors[i] == BarColor(r.amounts[i]);
    }
  }

  lemma SortedAmounts(sorted: seq<Item>, r: Series)
    requires |r.keys| == |r.amounts| && Entries(r) == sorted
    requires SortedByMagnitude(sorted)
    ensures forall i :: 0 <= i < |r.amounts| - 1 ==> Precedes(r.amounts[i], r.amounts[i + 1])
    ensures forall i :: 0 <= i < |r.keys| ==> Item(r.keys[i], r.amounts[i]) in multiset(sorted)
  {
    forall i | 0 <= i < |r.amounts| - 1 ensures Precedes(r.amounts[i], r.amounts[i + 1]) {
      assert sorted[i].amount == r.amounts[i] && sorted[i + 1].amount == r.amounts[i + 1];
    }
    forall i | 0 <= i < |r.keys| ensures Item(r.keys[i], r.amounts[i]) in multiset(sorted) {
      assert sorted[i] == Item(r.keys[i], r.amounts[i]);
    }
  }

  lemma StableForAll(items: seq<Item>)
    ensures forall v :: WithAmount(Sort(items), v) == WithAmount(items, v)
  {
    forall v {
      SortIsStable(items, v);
    }
  }
}
