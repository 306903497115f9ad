/**
 * The bookkeeping of MakeLegend: the entry count (header included), the
 * substitution of placeholders in the entry labels, the round-robin
 * assignment of entries to columns with the widest entry per column, the
 * total width, the tallest entry, and the marker style of every entry.
 * Pixel widths and heights come from the plotting library's text metrics
 * and are inputs here, one per label (the header's last).
 */
module LegendLayout {
  import opened Optional
  import opened StringOps

  /** What MakeLegend reads from one drawn object of the legend. */
  datatype LegendObject = LegendObject(
    name: string,
    title: string,
    isTF1: bool,
    isTH1: bool,
    // the statistics of a histogram, as std::to_string prints them
    entries: string,
    integral: string,
    mean: string,
    maximum: string,
    minimum: string)

  /** One legend entry as it is added: its label and its draw style. */
  datatype LegendRow = LegendRow(text: string, drawStyle: string)

  /** What the legend's size and contents are computed from. */
  datatype LegendSize = LegendSize(
    nEntries: nat,
    columnWidths: seq<nat>,
    legendWidth: nat,
    titleWidth: nat,
    legendHeight: nat,
    titleIsWider: bool,
    rows: seq<LegendRow>)

  /** The label holds one of the placeholders MakeLegend fills in. */
  predicate HasPlaceholder(s: string) {
    Contains(s, "<name>") || Contains(s, "<title>") || Contains(s, "<entries>") ||
    Contains(s, "<integral>") || Contains(s, "<mean>") || Contains(s, "<maximum>") ||
    Contains(s, "<minimum>")
  }

  /** `name.substr(0, name.find(separator))`: the object name without its group suffix. */
  function ShortName(name: string, separator: string): (r: string)
    ensures |r| <= |name| && r == name[..|r|]
    ensures Contains(name, separator) ==> OccursAt(name, separator, |r|)
    ensures |separator| > 0 ==> !Contains(r, separator)
    ensures !Contains(name, separator) ==> r == name
    ensures Contains(name, separator) ==> |r| == Find(name, separator).value
  {
    match Find(name, separator)
    case None => name
    case Some(p) =>
      var r := name[..p];
      assert |separator| > 0 ==> !Contains(r, separator) by {
        if |separator| > 0 {
          NoOccurrenceInPrefix(name, separator, p);
        }
      }
      r
  }

  /** The "<name>" step: the first "<name>" becomes the short object name. */
  function SubstituteName(entryLabel: string, obj: LegendObject, separator: string): string {
    if Contains(entryLabel, "<name>") then ReplaceFirst(entryLabel, "<name>", ShortName(obj.name, separator)) else entryLabel
  }

  /** Replace the first `placeholder` by `value` when present and `applies` holds. */
  function SubstituteIf(entryLabel: string, placeholder: string, value: string, applies: bool): string {
    if Contains(entryLabel, placeholder) && applies then ReplaceFirst(entryLabel, placeholder, value) else entryLabel
  }

  /** One substitution after the "<name>" step: a placeholder, its value, and whether it applies to the object. */
  datatype Fill = Fill(placeholder: string, value: string, applies: bool)

  /** The substitutions after "<name>", in MakeLegend's order: the title for any object, the statistics only for histograms. */
  function Fills(obj: LegendObject): (r: seq<Fill>)
    ensures |r| == 6
  {
    [Fill("<title>", obj.title, true),
     Fill("<entries>", obj.entries, obj.isTH1),
     Fill("<integral>", obj.integral, obj.isTH1),
     Fill("<mean>", obj.mean, obj.isTH1),
     Fill("<maximum>", obj.maximum, obj.isTH1),
     Fill("<minimum>", obj.minimum, obj.isTH1)]
  }

  /** The substitutions applied one after the other. */
  function FillAll(entryLabel: string, fills: seq<Fill>): string
    decreases |fills|
  {
    if |fills| == 0 then entryLabel
    else FillAll(SubstituteIf(entryLabel, fills[0].placeholder, fills[0].value, fills[0].applies), fills[1..])
  }

  /** A label holding none of the placeholders comes out of the substitutions unchanged. */
  lemma {:induction false} FillAllWithoutPlaceholders(entryLabel: string, fills: seq<Fill>)
    requires forall k :: 0 <= k < |fills| ==> !Contains(entryLabel, fills[k].placeholder)
    ensures FillAll(entryLabel, fills) == entryLabel
    decreases |fills|
  {
    if |fills| > 0 {
      FillAllWithoutPlaceholders(entryLabel, fills[1..]);
    }
  }

  /** The placeholder substitution of one label, in the order MakeLegend does it. */
  function Substitute(entryLabel: string, obj: LegendObject, separator: string): string {
    FillAll(SubstituteName(entryLabel, obj, separator), Fills(obj))
  }

  /** A label without placeholders is used as it is. */
  lemma SubstituteWithoutPlaceholder(entryLabel: string, obj: LegendObject, separator: string)
    requires !HasPlaceholder(entryLabel)
    ensures Substitute(entryLabel, obj, separator) == entryLabel
  {
    FillAllWithoutPlaceholders(entryLabel, Fills(obj));
  }

  /** Only the first "<name>" is replaced: a later one is still there afterwards. */
  lemma SubstituteNameKeepsLaterNames(entryLabel: string, obj: LegendObject, separator: string, j: nat)
    requires Contains(entryLabel, "<name>")
    requires OccursAt(entryLabel, "<name>", j) && j >= Find(entryLabel, "<name>").value + |"<name>"|
    ensures Contains(SubstituteName(entryLabel, obj, separator), "<name>")
  {
    var short := ShortName(obj.name, separator);
    ReplaceFirstKeepsLaterOccurrences(entryLabel, "<name>", short, j);
    ContainsIffOccurs(SubstituteName(entryLabel, obj, separator), "<name>");
  }

  /** The first "<name>" is replaced by the short name: the label before it is kept and the short name follows. */
  lemma SubstituteNamePlacesShortName(entryLabel: string, obj: LegendObject, separator: string)
    requires Contains(entryLabel, "<name>")
    ensures var i := Find(entryLabel, "<name>").value;
            var r := SubstituteName(entryLabel, obj, separator);
            r[..i] == entryLabel[..i] && OccursAt(r, ShortName(obj.name, separator), i)
  {
  }

  /** The draw style of an entry: a line for a function or a "hist"-styled entry, error bars and points otherwise. */
  function DrawStyle(obj: LegendObject, errorStyle: string): (r: string)
    ensures r == "l" <==> (obj.isTF1 || errorStyle == "hist")
    ensures r == "ep" <==> !(obj.isTF1 || errorStyle == "hist")
  {
    if obj.isTF1 || errorStyle == "hist" then "l" else "ep"
  }

  /** The widest of the first `n` entries that fall into column `c` (0 when none does). */
  function ColumnWidth(widths: seq<nat>, n: nat, nColumns: nat, c: nat): nat
    requires n <= |widths| && nColumns > 0
  {
    if n == 0 then 0
    else
      var w := ColumnWidth(widths, n - 1, nColumns, c);
      if (n - 1) % nColumns == c && widths[n - 1] > w then widths[n - 1] else w
  }

  /** A column is as wide as its widest entry: no entry is wider, and a non-zero width is some entry's. */
  lemma {:induction false} ColumnWidthIsMaximum(widths: seq<nat>, n: nat, nColumns: nat, c: nat)
    requires n <= |widths| && nColumns > 0
    ensures forall k :: 0 <= k < n && k % nColumns == c ==> widths[k] <= ColumnWidth(widths, n, nColumns, c)
    ensures ColumnWidth(widths, n, nColumns, c) == 0 ||
            exists k :: 0 <= k < n && k % nColumns == c && widths[k] == ColumnWidth(widths, n, nColumns, c)
  {
    if n > 0 {
      ColumnWidthIsMaximum(widths, n - 1, nColumns, c);
    }
  }

  /** Multiplying by a natural number keeps the order. */
  lemma MulMono(a: int, b: int, n: nat)
    ensures a <= b ==> a * n <= b * n
  {
    assert b * n - a * n == (b - a) * n;
  }

  /** The remainder is the r of any q * n + r with 0 <= r < n. */
  lemma ModUnique(x: int, n: int, q: int, r: int)
    requires 0 < n && 0 <= r < n && x == q * n + r
    ensures x % n == r
  {
    var q' := x / n;
    assert x == q' * n + x % n;
    assert (q' + 1) * n == q' * n + n;
    assert (q + 1) * n == q * n + n;
    MulMono(q' + 1, q, n);
    MulMono(q + 1, q', n);
  }

  /** Advancing the column counter and wrapping it at nColumns gives entry k + 1's column. */
  lemma NextColumn(k: nat, nColumns: nat)
    requires nColumns > 0
    ensures (k % nColumns + 1) % nColumns == (k + 1) % nColumns
  {
    var q := k / nColumns;
    var r := k % nColumns;
    assert k == q * nColumns + r;
    if r + 1 < nColumns {
      ModUnique(r + 1, nColumns, 0, r + 1);
      ModUnique(k + 1, nColumns, q, r + 1);
    } else {
      ModUnique(r + 1, nColumns, 1, 0);
      assert (q + 1) * nColumns == q * nColumns + nColumns;
      ModUnique(k + 1, nColumns, q + 1, 0);
    }
  }

  /** The sum of the column widths. */
  function Sum(s: seq<nat>): nat
    decreases |s|
  {
    if |s| == 0 then 0 else Sum(s[..|s| - 1]) + s[|s| - 1]
  }

  /** No column is wider than the whole legend. */
  lemma {:induction false} SumBoundsEach(s: seq<nat>)
    ensures forall k :: 0 <= k < |s| ==> s[k] <= Sum(s)
    decreases |s|
  {
    if |s| > 0 {
      var init := s[..|s| - 1];
      SumBoundsEach(init);
      assert forall k :: 0 <= k < |init| ==> init[k] == s[k];
    }
  }

  /** The largest of the values, 0 for none. */
  function MaxOf(s: seq<nat>): nat
    decreases |s|
  {
    if |s| == 0 then 0
    else
      var m := MaxOf(s[..|s| - 1]);
      if s[|s| - 1] > m then s[|s| - 1] else m
  }

  /** Taking one more value into MaxOf raises it to that value when it is larger. */
  lemma MaxOfStep(s: seq<nat>, k: nat)
    requires k < |s|
    ensures MaxOf(s[..k + 1]) == if s[k] > MaxOf(s[..k]) then s[k] else MaxOf(s[..k])
  {
    assert s[..k + 1][..k] == s[..k];
  }

  /** MaxOf bounds every value. */
  lemma {:induction false} MaxOfBoundsEach(s: seq<nat>)
    ensures forall k :: 0 <= k < |s| ==> s[k] <= MaxOf(s)
    decreases |s|
  {
    if |s| > 0 {
      var init := s[..|s| - 1];
      MaxOfBoundsEach(init);
      assert forall k :: 0 <= k < |init| ==> init[k] == s[k];
    }
  }

  /**
   * The first loop of MakeLegend: substitute the placeholders of every label,
   * track the tallest entry, give the header's width to the title, and keep
   * the widest entry of each column, entry k going to column k % nColumns.
   * `legendTitles` is the caller's label list, taken by value; the header,
   * when not empty, is appended to the local copy as its last label.
   */
  method MeasureEntries(header: string, nColumns: nat, objects: seq<LegendObject>,
                        legendTitles: seq<string>, widths: seq<nat>, heights: seq<nat>,
                        separator: string)
    returns (titles: seq<string>, perColumn: seq<nat>, legendHeight: nat, titleWidth: nat)
    requires nColumns > 0
    requires |legendTitles| == |objects|
    requires |widths| == |heights| == |objects| + (if header != "" then 1 else 0)
    ensures |titles| >= |objects|
    ensures forall j :: 0 <= j < |objects| ==>
      titles[j] == Substitute(legendTitles[j], objects[j], separator)
    ensures |perColumn| == nColumns
    ensures forall c :: 0 <= c < nColumns ==>
      perColumn[c] == ColumnWidth(widths, |objects|, nColumns, c)
    ensures legendHeight == MaxOf(heights)
    ensures titleWidth == if header != "" then widths[|objects|] else 0
  {
    var n := |objects|;
    titles := legendTitles;
    if header != "" {
      titles := titles + [header];
    }
    var iColumn := 0;
    titleWidth := 0;
    perColumn := seq(nColumns, _ => 0);
    legendHeight := 0;
    var iLegend := 1;
    var k := 0;
    while k < |titles|
      invariant 0 <= k <= |titles| == |widths|
      invariant |perColumn| == nColumns
      invariant k <= n ==> iLegend == k + 1 && iColumn == k % nColumns
      invariant k > n ==> iLegend == n + 1 && iColumn == n % nColumns
      invariant forall c :: 0 <= c < nColumns ==>
        perColumn[c] == ColumnWidth(widths, if k <= n then k else n, nColumns, c)
      invariant legendHeight == MaxOf(heights[..k])
      invariant titleWidth == if k > n then widths[n] else 0
      invariant |titles| == n + (if header != "" then 1 else 0)
      invariant forall j :: 0 <= j < k && j < n ==>
        titles[j] == Substitute(legendTitles[j], objects[j], separator)
      invariant forall j :: k <= j < n ==> titles[j] == legendTitles[j]
    {
      // the header, last, is left as it is: MakeLegendLayout admits only
      // headers without placeholders, whose substitution changes nothing (a
      // placeholder there would make the substitution read past the entries)
      if k < n {
        assert titles[k] == legendTitles[k] && iLegend - 1 == k;
        titles := titles[k := Substitute(titles[k], objects[iLegend - 1], separator)];
      }
      var width := widths[k];
      legendHeight := RaiseHeight(legendHeight, heights, k);
      if header != "" && iLegend == |titles| {
        titleWidth := width;
      } else {
        perColumn := WidenColumn(perColumn, widths, k, nColumns, iColumn);
        NextColumn(k, nColumns);
        iColumn := (iColumn + 1) % nColumns;
        iLegend := iLegend + 1;
      }
      k := k + 1;
    }
    assert heights[..k] == heights;
  }

  /** The legend is as tall as its tallest entry so far: entry k raises the height when it is taller. */
  method RaiseHeight(legendHeight: nat, heights: seq<nat>, k: nat) returns (r: nat)
    requires k < |heights| && legendHeight == MaxOf(heights[..k])
    ensures r == MaxOf(heights[..k + 1])
  {
    MaxOfStep(heights, k);
    r := legendHeight;
    if heights[k] > legendHeight {
      r := heights[k];
    }
  }

  /** Entry k widens its column when it is wider than every earlier entry of that column. */
  method WidenColumn(perColumn: seq<nat>, widths: seq<nat>, k: nat, nColumns: nat, iColumn: nat)
    returns (r: seq<nat>)
    requires nColumns > 0 && k < |widths| && |perColumn| == nColumns && iColumn == k % nColumns
    requires forall c :: 0 <= c < nColumns ==> perColumn[c] == ColumnWidth(widths, k, nColumns, c)
    ensures |r| == nColumns
    ensures forall c :: 0 <= c < nColumns ==> r[c] == ColumnWidth(widths, k + 1, nColumns, c)
  {
    r := perColumn;
    if widths[k] > perColumn[iColumn] {
      r := perColumn[iColumn := widths[k]];
    }
  }

  /** The legend width: the column widths added up. */
  method SumColumns(perColumn: seq<nat>) returns (total: nat)
    ensures total == Sum(perColumn)
    ensures forall c :: 0 <= c < |perColumn| ==> perColumn[c] <= total
  {
    total := 0;
    var c := 0;
    while c < |perColumn|
      invariant 0 <= c <= |perColumn|
      invariant total == Sum(perColumn[..c])
    {
      assert perColumn[..c + 1][..c] == perColumn[..c];
      total := total + perColumn[c];
      c := c + 1;
    }
    assert perColumn[..c] == perColumn;
    SumBoundsEach(perColumn);
  }

  /** The entries added to the legend: the substituted label and the draw style of every object, in order. */
  method ListRows(titles: seq<string>, objects: seq<LegendObject>, errorStyles: seq<string>)
    returns (rows: seq<LegendRow>)
    requires |titles| >= |objects| && |errorStyles| == |objects|
    ensures |rows| == |objects|
    ensures forall i :: 0 <= i < |objects| ==>
      rows[i] == LegendRow(titles[i], DrawStyle(objects[i], errorStyles[i]))
  {
    rows := [];
    var i := 0;
    while i < |objects|
      invariant 0 <= i <= |objects|
      invariant |rows| == i
      invariant forall j :: 0 <= j < i ==>
        rows[j] == LegendRow(titles[j], DrawStyle(objects[j], errorStyles[j]))
    {
      var drawStyle := "ep";
      if objects[i].isTF1 || errorStyles[i] == "hist" {
        drawStyle := "l";
      }
      rows := rows + [LegendRow(titles[i], drawStyle)];
      i := i + 1;
    }
  }

  /**
   * The legend bookkeeping of MakeLegend. The header takes no column and no
   * width in the columns; it counts in nEntries and in the height, and the
   * title sets the legend width when it is wider than the columns together.
   */
  method MakeLegendLayout(header: string, nColumns: nat, objects: seq<LegendObject>,
                          legendTitles: seq<string>, errorStyles: seq<string>,
                          widths: seq<nat>, heights: seq<nat>, separator: string)
    returns (layout: LegendSize)
    requires nColumns > 0
    requires |legendTitles| == |objects| && |errorStyles| == |objects|
    requires |widths| == |heights| == |objects| + (if header != "" then 1 else 0)
    requires !HasPlaceholder(header)
    ensures layout.nEntries == |objects| + (if header != "" then 1 else 0)
    ensures |layout.columnWidths| == nColumns
    ensures forall c :: 0 <= c < nColumns ==>
      layout.columnWidths[c] == ColumnWidth(widths, |objects|, nColumns, c)
    ensures forall k :: 0 <= k < |objects| ==> widths[k] <= layout.columnWidths[k % nColumns]
    ensures layout.legendWidth == Sum(layout.columnWidths)
    ensures layout.titleWidth == if header != "" then widths[|objects|] else 0
    ensures layout.titleIsWider == (layout.titleWidth > layout.legendWidth)
    ensures layout.legendHeight == MaxOf(heights)
    ensures forall k :: 0 <= k < |heights| ==> heights[k] <= layout.legendHeight
    ensures |layout.rows| == |objects|
    ensures forall i :: 0 <= i < |objects| ==>
      layout.rows[i] == LegendRow(Substitute(legendTitles[i], objects[i], separator),
                                  DrawStyle(objects[i], errorStyles[i]))
  {
    var n := |objects|;
    var nEntries := n;
    if header != "" {
      nEntries := nEntries + 1;
    }
    var titles, perColumn, legendHeight, titleWidth :=
      MeasureEntries(header, nColumns, objects, legendTitles, widths, heights, separator);
    var legendWidth := SumColumns(perColumn);
    var rows := ListRows(titles, objects, errorStyles);
    forall k | 0 <= k < n
      ensures widths[k] <= perColumn[k % nColumns]
    {
      ColumnWidthIsMaximum(widths, n, nColumns, k % nColumns);
    }
    MaxOfBoundsEach(heights);
    layout := LegendSize(nEntries, perColumn, legendWidth, titleWidth, legendHeight,
                     titleWidth > legendWidth, rows);
  }
}
