# PlottingFramework helpers, modelled in Dafny

PlottingFramework builds figures with a plotting library from a description of
plots, pads, data, ratios and boxes. Most of its code drives the library. This
project models the self-contained bookkeeping around those calls and proves
what it computes. The library's objects become sequences, arrays, records and
`Option` values.

- `string_ops.dfy` (module `StringOps`): the `std::string` operations the code uses.
  These are `find` (first occurrence, `None` for `npos`), `erase` and `replace` of the
  first occurrence, and joining lines.
- `text_lines.dfy` (`TextLines`): the line splitting of `MakeText`. The box text is cut
  at every `" // "`, and the longest line is tracked.
- `histogram_cut.dfy` (`HistogramCut`): `CutHistogram` on two arrays, bin contents and
  bin errors. Both are indexed from 0 (underflow) to `nbins + 1` (overflow).
- `graph_cut.dfy` (`GraphCut`): `CutGraph` on a `Graph` class. It holds the point list
  and `RemovePoint`.
- `legend_layout.dfy` (`LegendLayout`): the entry and column bookkeeping of `MakeLegend`,
  covering:
  - placeholder substitution;
  - round-robin columns, the widest entry per column, the total width;
  - the tallest entry and the title width;
  - the draw style of every entry.
- `pad_painting.dfy` (`PadPainting`): the per-data loop of `GeneratePlot` as a state
  machine over data descriptors, covering:
  - colour and marker fallbacks;
  - the drawing option string;
  - the data index;
  - the three parallel legend lists (labels, error styles, referenced draws);
  - the pad flags read from the control string.
- `plot.dfy` (`PlotDescription`): the plot description of `inc/Plot.h`, covering:
  - unique names;
  - dimension setters;
  - pad lookup with insertion;
  - data and ratio ranges;
  - box placement accessors;
  - the legend entry constructor.

The two source files belong to different generations of the interface, and each
is modelled against its own types. `src/PlottingTools.cxx` uses `PlotStyle` and
`Plot::Histogram`. `inc/Plot.h` defines `Plot::Pad::Data` and its relatives.

Inputs that the code gets from elsewhere become parameters:
- the group separator `gNameGroupSeparator` is a `separator` string;
- the style's default colour and marker per data index are functions `int -> int`;
- `FindBin` results are bin indices;
- text bounding boxes are width and height sequences.

## Model

| member | source | states |
|---|---|---|
| StringOps.Find | src/PlottingTools.cxx:695 | `find`: the result is an occurrence of the pattern with none before it, and `npos` exactly when the pattern occurs nowhere |
| StringOps.ContainsIffOccurs | src/PlottingTools.cxx:126 | `find(pat) != npos` holds exactly when the pattern occurs at some index |
| StringOps.ContainsInConcat | src/PlottingTools.cxx:131-133 | text appended on either side never removes an occurrence |
| StringOps.EraseFirst | src/PlottingTools.cxx:128 | `erase(find(pat), len)` shortens by the pattern's length; putting the pattern back where it was found restores the string |
| StringOps.ReplaceFirst | src/PlottingTools.cxx:497 | `replace(find(pat), size, rep)`: the text before the first occurrence is kept, the replacement follows, then the text after the occurrence |
| StringOps.ReplaceFirstKeepsLaterOccurrences | src/PlottingTools.cxx:497 | only the first occurrence is replaced; a later one is still there, shifted by the change in length |
| StringOps.MaxLengthIsMaximum | src/PlottingTools.cxx:697 | the tracked maximum bounds every line length and equals the length of one line |
| TextLines.SplitText | src/PlottingTools.cxx:687-702 | the do-while loop yields the lines of `SplitLines` (at least one, also for empty text); joining them with `" // "` gives the text back; no line contains the delimiter; `nLetters` is the longest line's length |
| TextLines.SplitLinesHaveNoDelimiter | src/PlottingTools.cxx:694-702 | no line of the split contains `" // "` |
| TextLines.JoinSplitLines | src/PlottingTools.cxx:694-702 | joining the lines with `" // "` reproduces the text |
| TextLines.SplitJoinedLines | src/PlottingTools.cxx:694-702 | the other direction: lines without `'/'` come back unchanged from splitting their join |
| HistogramCut.CutHistogram | src/PlottingTools.cxx:760-775 | contents and errors become `CutBins` of the old values: the bins of the active cuts are zeroed in both arrays, and nothing else changes |
| HistogramCut.CutDisabledIsIdentity | src/PlottingTools.cxx:762 | an upper cut below -997 changes no bin, whatever the lower cut is |
| HistogramCut.UpperCutZeroesTail | src/PlottingTools.cxx:763-767 | with the upper cut active, every bin from `cutoffBin` through `nbins` is 0 |
| HistogramCut.LowerCutZeroesHead | src/PlottingTools.cxx:768-773 | with both cuts active, bins 1 through `cutoffBinLow` are 0 |
| HistogramCut.CutKeepsMiddleAndOverflow | src/PlottingTools.cxx:763-773 | bins strictly between the two cut bins keep their value; so does the overflow bin unless the lower cut bin is the overflow bin |
| HistogramCut.CutIsIdempotent | src/PlottingTools.cxx:760-775 | cutting twice with the same cuts equals cutting once |
| GraphCut.Graph.RemovePoint | src/PlottingTools.cxx:807-814 | the point at a valid index is removed and the rest keep their order; an index outside the graph changes nothing |
| GraphCut.Graph.CountPointsToRemove | src/PlottingTools.cxx:787-805 | the counting loop yields the number of points above the upper cut and below the lower cut, each 0 when its cut is below -997 |
| GraphCut.Graph.CutGraph | src/PlottingTools.cxx:785-816 | the new point list is `CutPoints` of the old one: the counted numbers go from the end, then from the front |
| GraphCut.CutPointsIsSlice | src/PlottingTools.cxx:807-814 | the survivors are a contiguous slice of the original points, in their order |
| GraphCut.CutPointsDisabled | src/PlottingTools.cxx:790-791 | with both cuts below -997 the graph is unchanged |
| GraphCut.SortedAboveIsSuffix | src/PlottingTools.cxx:799-802 | on ascending x, the points above the cut are exactly the last `CountAbove` points |
| GraphCut.SortedBelowIsPrefix | src/PlottingTools.cxx:795-798 | on ascending x, the points below the cut are exactly the first `CountBelow` points |
| GraphCut.CutPointsSortedKeepsInRange | src/PlottingTools.cxx:778-816 | on ascending x, the survivors are exactly the points with `cutoffLow <= x <= cutoff` for the active cuts, as the function's comment promises |
| LegendLayout.ShortName | src/PlottingTools.cxx:494-495 | `name.substr(0, name.find(sep))` is a prefix of the name, ends where the first separator starts, and holds no separator |
| LegendLayout.SubstituteWithoutPlaceholder | src/PlottingTools.cxx:492-533 | a label without any placeholder is used as it is |
| LegendLayout.FillAllWithoutPlaceholders | src/PlottingTools.cxx:499-533 | the title and statistics substitutions leave a label alone when it holds none of their placeholders |
| LegendLayout.SubstituteNameKeepsLaterNames | src/PlottingTools.cxx:492-498 | only the first `"<name>"` is replaced; a later one survives |
| LegendLayout.SubstituteNamePlacesShortName | src/PlottingTools.cxx:492-498 | the first `"<name>"` becomes the short name, and the label before it is kept |
| LegendLayout.DrawStyle | src/PlottingTools.cxx:646-654 | the style is `"l"` exactly when the entry is a TF1 or its error style is `"hist"`, and `"ep"` exactly otherwise |
| LegendLayout.ColumnWidthIsMaximum | src/PlottingTools.cxx:547 | a column is as wide as its widest entry: no entry of the column is wider, and a non-zero width is an entry's |
| LegendLayout.NextColumn | src/PlottingTools.cxx:548-549 | `iColumn++; iColumn %= nColumns` moves from entry k's column `k % nColumns` to entry k + 1's |
| LegendLayout.SumBoundsEach | src/PlottingTools.cxx:552 | no column is wider than the columns' total |
| LegendLayout.MaxOfBoundsEach | src/PlottingTools.cxx:541 | the tallest height bounds every entry's height |
| LegendLayout.RaiseHeight | src/PlottingTools.cxx:541 | after entry k the height is the maximum of the first k + 1 heights |
| LegendLayout.WidenColumn | src/PlottingTools.cxx:547 | after entry k every column holds the widest of its entries among the first k + 1 |
| LegendLayout.MeasureEntries | src/PlottingTools.cxx:483-551 | the first loop: entry labels substituted, entry k in column `k % nColumns` with every column its widest entry, the height the tallest of all (header included), and the header's width as the title width |
| LegendLayout.SumColumns | src/PlottingTools.cxx:552 | the legend width is the sum of the column widths and bounds each of them |
| LegendLayout.ListRows | src/PlottingTools.cxx:646-658 | one row per object, in order, with its label and its draw style |
| LegendLayout.MakeLegendLayout | src/PlottingTools.cxx:466-570 | nEntries counts the header; every entry fits its column `k % nColumns` and each column is its widest entry; the width is the sum of the columns; the header counts in the height but in no column; the title is compared with the width; the rows carry the substituted labels and draw styles |
| PadPainting.Resolve | src/PlottingTools.cxx:93-97 | a zero colour or marker takes the default at the data index; a negative colour, given or defaulted, shifts the data index by itself and takes the default colour there; a negative marker, given or defaulted, takes the default at the shifted index |
| PadPainting.WithoutNone | src/PlottingTools.cxx:126-130 | the first `"none"` is dropped when present, otherwise the options are unchanged |
| PadPainting.HistWinsOverBandAndBoxes | src/PlottingTools.cxx:131-154 | once the options hold `"hist"`, `" HIST"` is appended to them unchanged, and a `"band"` or `"boxes"` in them stays |
| PadPainting.HistBandRule | src/PlottingTools.cxx:135-143 | without `"hist"`, a `"band"` gives the options with their first `"band"` erased and `" E5"` appended, and a `"boxes"` in them survives |
| PadPainting.HistBoxesRule | src/PlottingTools.cxx:144-154 | without `"hist"` and `"band"`, a `"boxes"` gives the options with their first `"boxes"` erased and `" E2"` appended |
| PadPainting.HistPlainRule | src/PlottingTools.cxx:120-155 | with none of `"hist"`, `"band"`, `"boxes"`, the histogram is drawn with its options as they are after the 2-D style and the `"none"` removal |
| PadPainting.BandAndBoxesApart | src/PlottingTools.cxx:137 | an occurrence of `"band"` and one of `"boxes"` never overlap, so erasing the one leaves the other |
| PadPainting.ComposeHistOptions | src/PlottingTools.cxx:120-154 | the statement sequence that edits the histogram's option string computes `HistOptions`, whose cases the four lemmas above state |
| PadPainting.Paint | src/PlottingTools.cxx:100-254 | a drawn datum ends with its own draw call; only a first one-dimensional ratio adds the axis frame before it, raising the data index by one |
| PadPainting.PaintFrameRule | src/PlottingTools.cxx:185-203 | the frame is drawn exactly for a one-dimensional ratio at data index 0; then there are two draw records instead of one and the data index is one higher |
| PadPainting.PaintHistRule | src/PlottingTools.cxx:101-155 | a histogram gets one draw with `HistOptions`, the resolved colour and marker, and the `normalize` and `thick` flags of the control string |
| PadPainting.PaintRatioRule | src/PlottingTools.cxx:172-218 | a ratio is drawn with the 2-D style, or `" SAME"` over the frame, then error boxes; over the frame its colour and marker are looked up again at index 1, unless the datum sets them |
| PadPainting.WithErrorBoxesRule | src/PlottingTools.cxx:205-214 | a `"boxes"` is erased once and `" E2"` appended (two characters shorter); without `"boxes"` the options stay |
| PadPainting.PaintGraphRule | src/PlottingTools.cxx:240-253 | a graph with `"boxes"` is drawn `"E2 SAME"` whatever its other options; without, with its options; `" AP"` is appended exactly at data index 0 |
| PadPainting.PaintDrawn | src/PlottingTools.cxx:100-254 | the statement version of the draw step: its draw calls and data index are those of `Paint`, whose cases the rule lemmas above state |
| PadPainting.Step | src/PlottingTools.cxx:93-267 | a skipped datum keeps its options in the string and changes no list; a drawn one resets the options to `"EP SAME"` and appends its draw; a labelled drawn one appends its label, its options and its index to the legend lists together |
| PadPainting.PaintDatum | src/PlottingTools.cxx:93-267 | one pass of the loop body computes `Step` |
| PadPainting.PaintPad | src/PlottingTools.cxx:90-268 | the loop over the pad's data computes `RunPad` |
| PadPainting.RunPadLegend | src/PlottingTools.cxx:263-267 | the legend lists hold exactly the indices, labels and options of the drawn, labelled data, in order |
| PadPainting.ListedListsParallel | src/PlottingTools.cxx:263-267 | entry k of the three reference lists belongs to one and the same listed datum |
| PadPainting.LegendListsParallel | src/PlottingTools.cxx:263-267 | labels, error styles and references stay equally long; entry k's label and error style are those of the drawn, labelled datum it refers to |
| PadPainting.LegendRefsAscend | src/PlottingTools.cxx:263-267 | the legend references ascend strictly: data order, each datum at most once |
| PadPainting.LegendListsComplete | src/PlottingTools.cxx:263-267 | every drawn datum with a label gets a legend entry |
| PadPainting.DataIndexCountsDraws | src/PlottingTools.cxx:91-260 | without negative colours the data index equals the number of `Draw` records so far, where the ratio frame (two calls in the source, lines 193 and 198) is one record |
| PadPainting.StepCountsDraws | src/PlottingTools.cxx:93-267 | one pass keeps the data index equal to the number of draws when no colour is negative |
| PadPainting.SkippedDataAccumulateOptions | src/PlottingTools.cxx:99 | if every datum is skipped, nothing is drawn or listed, and the option string is the concatenation of every datum's options, in order |
| PadPainting.FlagsOnlyGrow | src/PlottingTools.cxx:272-291 | a control-string flag, once switched on by its keyword, stays on when text is added on either side |
| PlotDescription.DataUniqueName | inc/Plot.h:398 | the unique name starts with the name and ends with the input identifier, the separator between |
| PlotDescription.Plot.GetUniqueName | inc/Plot.h:113-116 | name, separator and group, then `':'` and the category only when the category is not empty |
| PlotDescription.FirstColonEndsGroup | inc/Plot.h:115 | in a group without `':'`, the first `':'` after it starts the category, and there is none without a category |
| PlotDescription.PlotUniqueNameInjective | inc/Plot.h:113-116 | for one plot name, groups without `':'` make the unique name tell group and category apart |
| PlotDescription.PlotUniqueNameCollides | inc/Plot.h:113-116 | a `':'` in a group lets two different plots share a unique name |
| PlotDescription.Plot.SetFigureGroup | inc/Plot.h:106 | only the figure group changes |
| PlotDescription.Plot.SetFigureCategory | inc/Plot.h:85 | only the figure category changes |
| PlotDescription.Plot.SetPlotTemplateName | inc/Plot.h:86 | only the template name changes, and it is set |
| PlotDescription.Plot.SetDimensions | inc/Plot.h:88-91 | width, height and fixAspectRatio are set together, fixAspectRatio false by default; nothing else changes |
| PlotDescription.Plot.SetWidth | inc/Plot.h:92 | only the width changes |
| PlotDescription.Plot.SetHeight | inc/Plot.h:93 | only the height changes |
| PlotDescription.Plot.SetFixAspectRatio | inc/Plot.h:94-97 | only fixAspectRatio changes, true by default |
| PlotDescription.Plot.GetPad | inc/Plot.h:76-77 | the pad stored under the identifier; if none is stored, a new default pad is stored there and returned |
| PlotDescription.Plot.GetPadDefaults | inc/Plot.h:78 | the pad under identifier 0, inserted as a default pad when missing |
| PlotDescription.Plot.constructor | inc/Plot.h:73 | a new plot has empty name, group and category, no template name, unset dimensions and no pads |
| PlotDescription.Pad.constructor | inc/Plot.h:165 | a new pad has each of its modelled settings (title, options, palette, redraw-axes flag, reference function) unset |
| PlotDescription.Data.constructor | inc/Plot.h:342 | a new data entry stores its name and input identifier, with both ranges unset |
| PlotDescription.Data.GetUniqueName | inc/Plot.h:398 | the data entry's unique name is `DataUniqueName` of its name and input identifier |
| PlotDescription.Data.SetRangeX | inc/Plot.h:353 | the X range gets both bounds; the Y range is kept |
| PlotDescription.Data.UnsetRangeX | inc/Plot.h:356 | the X range is cleared; the Y range is kept |
| PlotDescription.Data.UnsetRangeY | inc/Plot.h:360 | the Y range is cleared; the X range is kept |
| PlotDescription.Ratio.constructor | inc/Plot.h:472-473 | a new ratio stores its numerator's name and input identifier in a fresh data part with both ranges unset, and its denominator's name and input identifier |
| PlotDescription.Ratio.GetUniqueNameDenom | inc/Plot.h:527 | the denominator is looked up under the unique name a data entry of that name and input would have |
| PlotDescription.DenominatorFindsData | inc/Plot.h:398 | a data entry with the denominator's name and input is found by the ratio |
| PlotDescription.DenominatorNamesDiffer | inc/Plot.h:527 | denominators with names of one length but a different name or input get different unique names |
| PlotDescription.Ratio.UnsetRangeX | inc/Plot.h:489 | as written: the Y range is cleared and the X range is kept |
| PlotDescription.Ratio.UnsetRangeY | inc/Plot.h:493 | the Y range is cleared and the X range is kept |
| PlotDescription.UnsetRangeXKeepsRangeX | inc/Plot.h:489 | an X range set on a ratio survives its `UnsetRangeX` |
| PlotDescription.Ratio.UnsetRangeXIntended | inc/Plot.h:486-493 | the X range is cleared and the Y range is kept, as the name and every other forwarder intend |
| PlotDescription.UnsetRangeXIntendedClears | inc/Plot.h:486-493 | with the intended forwarder, the same X range is cleared |
| PlotDescription.Box.GetXPosition | inc/Plot.h:673 | the stored x position, 0 when unset |
| PlotDescription.Box.GetYPosition | inc/Plot.h:674 | the stored y position, 0 when unset |
| PlotDescription.Box.IsUserCoordinates | inc/Plot.h:685 | user coordinates exactly when they were explicitly set to true |
| PlotDescription.Box.IsAutoPlacement | inc/Plot.h:686 | automatic placement exactly when the x or the y position is unset |
| PlotDescription.PlacedBoxUsesStoredPosition | inc/Plot.h:673-686 | a box that is not placed automatically reports its stored positions |
| PlotDescription.Box.constructor | inc/Plot.h:691 | a new box has no position and no coordinate choice |
| PlotDescription.DefaultBox | inc/Plot.h:691 | a default box is placed automatically, at (0, 0), not in user coordinates |
| PlotDescription.LegendEntry.constructor | inc/Plot.h:827-834 | the given lable, referenced data name and draw style are stored (each unset by default), and every layout starts empty |

## Left out

- Every call into the plotting library is not modelled. This covers canvases and pads, style setters, `Draw`, `TExec`, the palette and 2-D view settings, the timestamp, the pad axis cosmetics for pad 2 and the ratio's axis frame styling. A draw call becomes a `Draw` record holding only its index, kind, options, colour and marker, and for a histogram the `normalize` and `thick` flags.
- The ratio's axis frame is two draw calls in the source, the invisible `"AXIS"` copy and the line at 1 drawn `"SAME"` (src/PlottingTools.cxx:188-198). It is one `Frame` record here, so the draw counts of `PadPainting` count records, not library calls.
- HistogramCut.CutHistogram: models one-dimensional histograms only. A 2-D histogram also reaches `CutHistogram` (src/PlottingTools.cxx:107 and 167, the TH2 test at 120 and 172 comes after it); there `SetBinContent(i, 0)` addresses global bin numbers, which zero the underflow row of the y axis rather than x bins. That case is not modelled.
- The `Pad` class keeps five of the source pad's settings (title, options, palette, redraw-axes flag, reference function). Its position, margins, fill, frame, text, marker, line and fill defaults, drawing option defaults, axes, data, legend boxes and text boxes (inc/Plot.h:307-330) are left out, because no modelled operation reads them.
- The `Plot` class leaves out the plot fill (`mFill`, with `SetFill` and `SetTransparent`, inc/Plot.h:99-100). Their bodies are in `src/Plot.cxx`.
- The `Data` class keeps the name, input identifier and the two ranges. Its frame flag, type, drawing options and alias, text format, legend, marker, line, fill and modifier fields are left out: no modelled operation reads them.
- `FindBin`, `TLatex::GetBoundingBox` and `PlotStyle::GetDefaultColor`/`GetDefaultMarker` are not modelled: their results are inputs.
- The separator `gNameGroupSeparator` is not part of this model. It is a parameter.
- Legend auto-placement (`TPad::PlaceBox` and the margin boxes), the NDC and user-coordinate conversions, and the legend and text-box size formulas are left out. They are floating-point geometry over library state.
- Both `DivideTSpline` overloads are left out: they do floating-point spline interpolation.
- Histogram normalisation `Scale(1/Integral)` and the thick line and marker sizes are left out. Only the `normalize` and `thick` flags on the draw record are modelled.
- The `CutHistogram`/`CutGraph` calls inside `GeneratePlot`, and the ratio's `Divide`, are left out of `PadPainting`. They are modelled on their own in `HistogramCut` and `GraphCut`.
- Linked-pad axis ranges are not part of this model: `GetLinkedPads` is defined elsewhere.
- `src/Plot.cxx` is not part of this model. It holds the `ptree` constructors, `GetPropertyTree`, and the bodies of `Data::SetRangeX`/`UnsetRangeX`/`UnsetRangeY`. Those three are modelled from their names and the `dataRange_t` fields. It also holds the bodies of the `Data` and `Ratio` constructors (inc/Plot.h:342, 472-473): they are modelled from their declarations, with both ranges taken to start unset, the default of the `optional` bounds of `dataRange_t` (inc/Plot.h:450-460). The legend label argument `lable` of both constructors is not modelled, as the `Data` class leaves out its legend field.
- Console error messages are not modelled.
- Widths and heights are natural numbers, as the unsigned bounding-box results are. Histogram bin values and graph coordinates are `real`: only comparisons and zeroing are done on them.
- `std::to_string` is not modelled. The statistics of a histogram in `LegendLayout.LegendObject` are the strings it would print.
- LegendLayout.MakeLegendLayout: requires a header without placeholders. With one, the source would substitute it from the entry past the last (`legendEntries[iLegend-1]` with `iLegend - 1 == nEntries - 1`), which reads outside the entry list.
- LegendLayout.MakeLegendLayout: requires `nColumns > 0`. With 0 columns the source indexes an empty column list and then divides by zero in `iColumn %= nColumns`.
- LegendLayout.MakeLegendLayout: the caller's label list is passed by value in the source and is a value (`seq`) here, so it cannot change.
- PadPainting.DataIndexCountsDraws: holds only without negative colours. A negative colour moves the data index back by design.
- GraphCut.Graph.RemovePoint: follows the library's documented behaviour for an index outside the graph (no change, result -1). The library source is not part of this model.

## Findings

| source | as written | input that shows it | evidently intended | confidence | as-written member | corrected member |
|---|---|---|---|---|---|---|
| inc/Plot.h:489 | `Ratio::UnsetRangeX` forwards to `Data::UnsetRangeY` | a ratio with X range (0, 1): after `UnsetRangeX()` the X range is still (0, 1), and its Y range is cleared instead | clear the X range through `Data::UnsetRangeX`, as every other forwarder of `Ratio` (lines 485-496) calls its same-named base method | high, by reading; not executed | PlotDescription.UnsetRangeXKeepsRangeX | PlotDescription.UnsetRangeXIntendedClears |
