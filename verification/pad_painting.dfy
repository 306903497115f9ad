/**
 * The bookkeeping of the per-data loop of GeneratePlot for one pad: colour
 * and marker fallbacks with the negative-colour index shift, the drawing
 * option string handed to each draw call, the data index, and the three
 * parallel legend lists (labels, error styles and the drawn object each
 * label refers to). The plotting library's objects are abstracted away: a
 * datum is a descriptor, and each draw call is recorded as a `Draw`.
 */
module PadPainting {
  import opened StringOps

  /** What the loop reads from one datum of the pad. */
  datatype DataDescriptor = DataDescriptor(
    kind: string,      // "hist", "ratio", "graph" or anything else
    color: int,        // 0: take the default colour
    style: int,        // 0: take the default marker
    options: string,   // the datum's own drawing options (its error style)
    legendLabel: string, // "" for no legend entry
    available: bool,   // the clone(s) of the datum were found among the loaded data
    is2D: bool)        // the histogram inherits from TH2

  /** The pad-wide inputs: the style defaults and the control string. */
  datatype Env = Env(
    defaultColor: int -> int,
    defaultMarker: int -> int,
    default2DStyle: string,
    controlString: string)

  /** A draw call: the invisible axis frame of a first one-dimensional ratio, or a datum. */
  datatype Draw =
    | Frame
    | Drawn(index: nat, kind: string, options: string, color: int, style: int,
            normalized: bool, thick: bool)

  /** The loop state across data. */
  datatype PadState = PadState(
    options: string,
    dataIndex: int,
    labels: seq<string>,
    errorStyles: seq<string>,
    legendRefs: seq<nat>,
    draws: seq<Draw>)

  const Initial := PadState("", 0, [], [], [], [])

  /** The options used for every datum after the first drawn one. */
  const Reset: string := "EP SAME"

  predicate IsKnownKind(kind: string) {
    kind == "hist" || kind == "ratio" || kind == "graph"
  }

  /** The datum gets drawn: a known kind whose data was found. */
  predicate IsDrawn(d: DataDescriptor) {
    IsKnownKind(d.kind) && d.available
  }

  /** The colour, marker and (possibly shifted) data index a datum starts with. */
  datatype Resolved = Resolved(color: int, style: int, dataIndex: int)

  /**
   * A zero colour or style falls back to the default for the data index. A
   * negative colour shifts the data index by that amount and takes the
   * default colour there; a negative style takes the default marker at the
   * shifted index.
   */
  function Resolve(d: DataDescriptor, dataIndex: int, env: Env): (r: Resolved)
    ensures d.color > 0 ==> r.color == d.color && r.dataIndex == dataIndex
    ensures d.color == 0 && env.defaultColor(dataIndex) >= 0 ==>
      r.color == env.defaultColor(dataIndex) && r.dataIndex == dataIndex
    ensures d.color < 0 ==>
      r.dataIndex == dataIndex + d.color && r.color == env.defaultColor(dataIndex + d.color)
    ensures d.color == 0 && env.defaultColor(dataIndex) < 0 ==>
      r.dataIndex == dataIndex + env.defaultColor(dataIndex) && r.color == env.defaultColor(r.dataIndex)
    ensures d.style > 0 ==> r.style == d.style
    ensures d.style == 0 && env.defaultMarker(dataIndex) >= 0 ==> r.style == env.defaultMarker(dataIndex)
    ensures d.style < 0 ==> r.style == env.defaultMarker(r.dataIndex)
    ensures d.style == 0 && env.defaultMarker(dataIndex) < 0 ==> r.style == env.defaultMarker(r.dataIndex)
  {
    var color := if d.color != 0 then d.color else env.defaultColor(dataIndex);
    var style := if d.style != 0 then d.style else env.defaultMarker(dataIndex);
    var index := if color < 0 then dataIndex + color else dataIndex;
    Resolved(if color < 0 then env.defaultColor(index) else color,
             if style < 0 then env.defaultMarker(index) else style,
             index)
  }

  /** The first "none" is dropped from the options. */
  function WithoutNone(opts: string): (r: string)
    ensures Contains(opts, "none") ==> |r| == |opts| - 4 && r == EraseFirst(opts, "none")
    ensures !Contains(opts, "none") ==> r == opts
  {
    if Contains(opts, "none") then EraseFirst(opts, "none") else opts
  }

  /** The options of a histogram before the style keywords are looked at: the 2-D style added, "none" dropped. */
  function HistBase(opts: string, is2D: bool, default2DStyle: string): string {
    WithoutNone(if is2D then opts + " " + default2DStyle else opts)
  }

  /** The draw options of a histogram: "hist" before "band" before "boxes". */
  function HistOptions(opts: string, is2D: bool, default2DStyle: string): string {
    var base := HistBase(opts, is2D, default2DStyle);
    if Contains(base, "hist") then base + " HIST"
    else if Contains(base, "band") then EraseFirst(base, "band") + " E5"
    else if Contains(base, "boxes") then EraseFirst(base, "boxes") + " E2"
    else base
  }

  /**
   * "hist" takes precedence: once the options (with "none" dropped) hold it,
   * " HIST" is appended and any "band" or "boxes" stays in the options.
   */
  lemma HistWinsOverBandAndBoxes(opts: string, is2D: bool, default2DStyle: string)
    requires Contains(HistBase(opts, is2D, default2DStyle), "hist")
    ensures var base := HistBase(opts, is2D, default2DStyle);
      var r := HistOptions(opts, is2D, default2DStyle);
      r[..|base|] == base && r[|base|..] == " HIST" &&
      (Contains(base, "band") ==> Contains(r, "band")) &&
      (Contains(base, "boxes") ==> Contains(r, "boxes"))
  {
    var base := HistBase(opts, is2D, default2DStyle);
    ContainsInConcat(base, " HIST", "band");
    ContainsInConcat(base, " HIST", "boxes");
  }

  /**
   * Without "hist", a "band" gives the error band: its first occurrence is
   * erased, " E5" is appended, and a "boxes" in the options stays there.
   */
  lemma HistBandRule(opts: string, is2D: bool, default2DStyle: string)
    requires var base := HistBase(opts, is2D, default2DStyle);
      !Contains(base, "hist") && Contains(base, "band")
    ensures var base := HistBase(opts, is2D, default2DStyle);
      var r := HistOptions(opts, is2D, default2DStyle);
      r == EraseFirst(base, "band") + " E5" &&
      (Contains(base, "boxes") ==> Contains(r, "boxes"))
  {
    var base := HistBase(opts, is2D, default2DStyle);
    if Contains(base, "boxes") {
      var i := Find(base, "band").value;
      var j := Find(base, "boxes").value;
      BandAndBoxesApart(base, i, j);
      EraseFirstKeepsOccurrence(base, "band", "boxes", j);
      ContainsInConcat(EraseFirst(base, "band"), " E5", "boxes");
    }
  }

  /** Without "hist" and "band", a "boxes" gives error boxes: its first occurrence is erased and " E2" appended. */
  lemma HistBoxesRule(opts: string, is2D: bool, default2DStyle: string)
    requires var base := HistBase(opts, is2D, default2DStyle);
      !Contains(base, "hist") && !Contains(base, "band") && Contains(base, "boxes")
    ensures var base := HistBase(opts, is2D, default2DStyle);
      HistOptions(opts, is2D, default2DStyle) == EraseFirst(base, "boxes") + " E2"
  {
  }

  /** With none of the three keywords the options go to the draw call as they are (2-D style added, "none" dropped). */
  lemma HistPlainRule(opts: string, is2D: bool, default2DStyle: string)
    requires var base := HistBase(opts, is2D, default2DStyle);
      !Contains(base, "hist") && !Contains(base, "band") && !Contains(base, "boxes")
    ensures HistOptions(opts, is2D, default2DStyle) == HistBase(opts, is2D, default2DStyle)
  {
  }

  /** An occurrence of "band" and one of "boxes" never overlap. */
  lemma BandAndBoxesApart(s: string, i: nat, j: nat)
    requires OccursAt(s, "band", i) && OccursAt(s, "boxes", j)
    ensures j + 5 <= i || i + 4 <= j
  {
    assert s[i] == s[i..i + 4][0] == 'b' && s[i + 1] == s[i..i + 4][1] == 'a';
    assert s[i + 2] == s[i..i + 4][2] == 'n' && s[i + 3] == s[i..i + 4][3] == 'd';
    assert s[j] == s[j..j + 5][0] == 'b' && s[j + 1] == s[j..j + 5][1] == 'o';
    assert s[j + 2] == s[j..j + 5][2] == 'x' && s[j + 3] == s[j..j + 5][3] == 'e';
    assert s[j + 4] == s[j..j + 5][4] == 's';
  }


  /** Error boxes for a ratio: the first "boxes" becomes " E2" at the end. */
  function WithErrorBoxes(opts: string): string {
    if Contains(opts, "boxes") then EraseFirst(opts, "boxes") + " E2" else opts
  }

  /** A graph with error boxes is drawn "E2 SAME"; the first datum of the pad draws its axes (" AP"). */
  function GraphOptions(opts: string, dataIndex: int): string {
    var o := if Contains(opts, "boxes") then "E2 SAME" else opts;
    if dataIndex == 0 then o + " AP" else o
  }

  /** The draw calls of one drawn datum, and the data index after them (before the final increment). */
  datatype Painted = Painted(draws: seq<Draw>, dataIndex: int)

  function Paint(d: DataDescriptor, i: nat, opts: string, res: Resolved, env: Env): (p: Painted)
    requires IsDrawn(d)
    ensures |p.draws| > 0 && p.draws[|p.draws| - 1].Drawn? && p.draws[|p.draws| - 1].index == i
    ensures p.dataIndex == res.dataIndex || (p.dataIndex == res.dataIndex + 1 && p.draws[0] == Frame)
  {
    if d.kind == "hist" then
      Painted([Drawn(i, d.kind, HistOptions(opts, d.is2D, env.default2DStyle), res.color, res.style,
                     Flags(env.controlString).normalize, Flags(env.controlString).thick)],
              res.dataIndex)
    else if d.kind == "ratio" then
      if !d.is2D && res.dataIndex == 0 then
        // the frame raises the data index; colour and marker are looked up again, without the shift
        var index := res.dataIndex + 1;
        var color := if d.color != 0 then d.color else env.defaultColor(index);
        var style := if d.style != 0 then d.style else env.defaultMarker(index);
        Painted([Frame, Drawn(i, d.kind, WithErrorBoxes(opts + " SAME"), color, style, false, false)], index)
      else
        var o := if d.is2D then opts + " " + env.default2DStyle else opts;
        Painted([Drawn(i, d.kind, WithErrorBoxes(o), res.color, res.style, false, false)], res.dataIndex)
    else
      Painted([Drawn(i, d.kind, GraphOptions(opts, res.dataIndex), res.color, res.style, false, false)],
              res.dataIndex)
  }

  /** A one-dimensional ratio drawn while the data index is 0 gets the invisible axis frame first. */
  predicate DrawsFrame(d: DataDescriptor, res: Resolved) {
    d.kind == "ratio" && !d.is2D && res.dataIndex == 0
  }

  /**
   * The frame is drawn exactly for a first one-dimensional ratio; it is one
   * extra draw call before the datum's own and raises the data index by one.
   */
  lemma PaintFrameRule(d: DataDescriptor, i: nat, opts: string, res: Resolved, env: Env)
    requires IsDrawn(d)
    ensures var p := Paint(d, i, opts, res, env);
      (Frame in p.draws <==> DrawsFrame(d, res)) &&
      |p.draws| == (if DrawsFrame(d, res) then 2 else 1) &&
      p.dataIndex == res.dataIndex + (if DrawsFrame(d, res) then 1 else 0)
  {
  }

  /**
   * A histogram is drawn once with its composed options, its resolved colour
   * and marker, and the normalize and thick flags of the control string.
   */
  lemma PaintHistRule(d: DataDescriptor, i: nat, opts: string, res: Resolved, env: Env)
    requires IsDrawn(d) && d.kind == "hist"
    ensures Paint(d, i, opts, res, env).draws ==
      [Drawn(i, "hist", HistOptions(opts, d.is2D, env.default2DStyle), res.color, res.style,
             Flags(env.controlString).normalize, Flags(env.controlString).thick)]
  {
  }

  /**
   * A ratio: a 2-D one gets the 2-D style, a first 1-D one " SAME" (it is
   * drawn over the frame, with colour and marker looked up again at the
   * raised index, ignoring the shift), any other keeps its options; then a
   * "boxes" becomes " E2" at the end.
   */
  lemma PaintRatioRule(d: DataDescriptor, i: nat, opts: string, res: Resolved, env: Env)
    requires IsDrawn(d) && d.kind == "ratio"
    ensures var p := Paint(d, i, opts, res, env);
      var o := if d.is2D then opts + " " + env.default2DStyle
               else if res.dataIndex == 0 then opts + " SAME" else opts;
      var color := if !DrawsFrame(d, res) then res.color
                   else if d.color != 0 then d.color else env.defaultColor(1);
      var style := if !DrawsFrame(d, res) then res.style
                   else if d.style != 0 then d.style else env.defaultMarker(1);
      p.draws[|p.draws| - 1] == Drawn(i, "ratio", WithErrorBoxes(o), color, style, false, false)
  {
  }

  /** Error boxes: the first "boxes" is erased and " E2" appended; without "boxes" the options stay. */
  lemma WithErrorBoxesRule(opts: string)
    ensures Contains(opts, "boxes") ==>
      WithErrorBoxes(opts) == EraseFirst(opts, "boxes") + " E2" && |WithErrorBoxes(opts)| == |opts| - 2
    ensures !Contains(opts, "boxes") ==> WithErrorBoxes(opts) == opts
  {
  }

  /**
   * A graph with "boxes" in its options is drawn "E2 SAME", whatever else the
   * options held; otherwise with its options. The first datum of the pad
   * adds " AP" to draw the axes.
   */
  lemma PaintGraphRule(d: DataDescriptor, i: nat, opts: string, res: Resolved, env: Env)
    requires IsDrawn(d) && d.kind == "graph"
    ensures var axes := if res.dataIndex == 0 then " AP" else "";
      Paint(d, i, opts, res, env).draws ==
      [Drawn(i, "graph", (if Contains(opts, "boxes") then "E2 SAME" else opts) + axes,
             res.color, res.style, false, false)]
  {
    var o := if Contains(opts, "boxes") then "E2 SAME" else opts;
    assert res.dataIndex != 0 ==> o + "" == o;
  }

  /**
   * One pass of the loop for datum `i`. Its options are always appended to
   * the running option string; a datum that is not drawn leaves them there
   * and changes nothing else but the (possibly shifted) data index. A drawn
   * datum resets the options to "EP SAME", raises the data index, and, when
   * labelled, adds its label, its own options and its index to the legend
   * lists together.
   */
  function Step(st: PadState, d: DataDescriptor, i: nat, env: Env): (r: PadState)
    ensures !IsDrawn(d) ==>
      r.options == st.options + d.options && r.labels == st.labels &&
      r.errorStyles == st.errorStyles && r.legendRefs == st.legendRefs && r.draws == st.draws
    ensures IsDrawn(d) ==>
      r.options == Reset && |r.draws| > |st.draws| && r.draws[..|st.draws|] == st.draws &&
      r.draws[|r.draws| - 1].Drawn? && r.draws[|r.draws| - 1].index == i
    ensures IsDrawn(d) && d.legendLabel != "" ==>
      r.labels == st.labels + [d.legendLabel] && r.errorStyles == st.errorStyles + [d.options] &&
      r.legendRefs == st.legendRefs + [i]
    ensures d.legendLabel == "" ==>
      r.labels == st.labels && r.errorStyles == st.errorStyles && r.legendRefs == st.legendRefs
  {
    var res := Resolve(d, st.dataIndex, env);
    var opts := st.options + d.options;
    if !IsDrawn(d) then
      st.(options := opts, dataIndex := res.dataIndex)
    else
      var p := Paint(d, i, opts, res, env);
      var labelled := d.legendLabel != "";
      PadState(Reset, p.dataIndex + 1,
               st.labels + (if labelled then [d.legendLabel] else []),
               st.errorStyles + (if labelled then [d.options] else []),
               st.legendRefs + (if labelled then [i] else []),
               st.draws + p.draws)
  }

  /** The state after the loop has gone over `data`. */
  function RunPad(data: seq<DataDescriptor>, env: Env): PadState
    decreases |data|
  {
    if |data| == 0 then Initial
    else Step(RunPad(data[..|data| - 1], env), data[|data| - 1], |data| - 1, env)
  }

  /** The datum gets a legend entry: it is drawn and labelled. */
  predicate IsListed(d: DataDescriptor) {
    IsDrawn(d) && d.legendLabel != ""
  }

  /** The indices of the listed data, in the order of the data. */
  function ListedIndices(data: seq<DataDescriptor>): seq<nat>
    decreases |data|
  {
    if |data| == 0 then []
    else ListedIndices(data[..|data| - 1]) + (if IsListed(data[|data| - 1]) then [|data| - 1] else [])
  }

  /** The labels of the listed data, in the order of the data. */
  function ListedLabels(data: seq<DataDescriptor>): seq<string>
    decreases |data|
  {
    if |data| == 0 then []
    else ListedLabels(data[..|data| - 1]) + (if IsListed(data[|data| - 1]) then [data[|data| - 1].legendLabel] else [])
  }

  /** The own options of the listed data, in the order of the data. */
  function ListedOptions(data: seq<DataDescriptor>): seq<string>
    decreases |data|
  {
    if |data| == 0 then []
    else ListedOptions(data[..|data| - 1]) + (if IsListed(data[|data| - 1]) then [data[|data| - 1].options] else [])
  }

  /** The loop fills the three legend lists with exactly the listed data's indices, labels and options. */
  lemma {:induction false} RunPadLegend(data: seq<DataDescriptor>, env: Env)
    ensures RunPad(data, env).legendRefs == ListedIndices(data)
    ensures RunPad(data, env).labels == ListedLabels(data)
    ensures RunPad(data, env).errorStyles == ListedOptions(data)
    decreases |data|
  {
    if |data| > 0 {
      RunPadLegend(data[..|data| - 1], env);
    }
  }

  /** Entry k of the three lists belongs to one and the same listed datum. */
  lemma {:induction false} ListedListsParallel(data: seq<DataDescriptor>)
    ensures |ListedLabels(data)| == |ListedOptions(data)| == |ListedIndices(data)|
    ensures forall k :: 0 <= k < |ListedIndices(data)| ==>
      ListedIndices(data)[k] < |data| && IsListed(data[ListedIndices(data)[k]]) &&
      ListedLabels(data)[k] == data[ListedIndices(data)[k]].legendLabel &&
      ListedOptions(data)[k] == data[ListedIndices(data)[k]].options
    decreases |data|
  {
    if |data| > 0 {
      var init := data[..|data| - 1];
      ListedListsParallel(init);
      assert forall k :: 0 <= k < |init| ==> init[k] == data[k];
    }
  }

  /** The listed indices ascend strictly and stay within the data. */
  lemma {:induction false} ListedIndicesAscend(data: seq<DataDescriptor>)
    ensures forall k :: 0 <= k < |ListedIndices(data)| ==> ListedIndices(data)[k] < |data|
    ensures forall k, l :: 0 <= k < l < |ListedIndices(data)| ==> ListedIndices(data)[k] < ListedIndices(data)[l]
    decreases |data|
  {
    if |data| > 0 {
      ListedIndicesAscend(data[..|data| - 1]);
    }
  }

  /** Every listed datum's index is among the listed indices. */
  lemma {:induction false} ListedIndicesComplete(data: seq<DataDescriptor>)
    ensures forall i :: 0 <= i < |data| && IsListed(data[i]) ==> i in ListedIndices(data)
    decreases |data|
  {
    if |data| > 0 {
      var init := data[..|data| - 1];
      ListedIndicesComplete(init);
      assert forall k :: 0 <= k < |init| ==> init[k] == data[k];
    }
  }

  /**
   * The legend lists stay parallel: each label comes with the error style of
   * the datum it belongs to, and that datum was drawn and labelled.
   */
  lemma LegendListsParallel(data: seq<DataDescriptor>, env: Env)
    ensures var st := RunPad(data, env);
      |st.labels| == |st.errorStyles| == |st.legendRefs| &&
      forall k :: 0 <= k < |st.legendRefs| ==>
        st.legendRefs[k] < |data| && IsDrawn(data[st.legendRefs[k]]) &&
        data[st.legendRefs[k]].legendLabel != "" &&
        st.labels[k] == data[st.legendRefs[k]].legendLabel &&
        st.errorStyles[k] == data[st.legendRefs[k]].options
  {
    RunPadLegend(data, env);
    ListedListsParallel(data);
  }

  /** The legend entries are in the order of the data, each datum at most once. */
  lemma LegendRefsAscend(data: seq<DataDescriptor>, env: Env)
    ensures var refs := RunPad(data, env).legendRefs;
      (forall k :: 0 <= k < |refs| ==> refs[k] < |data|) &&
      (forall k, l :: 0 <= k < l < |refs| ==> refs[k] < refs[l])
  {
    RunPadLegend(data, env);
    ListedIndicesAscend(data);
  }

  /** Every datum that is drawn and labelled gets its legend entry. */
  lemma LegendListsComplete(data: seq<DataDescriptor>, env: Env)
    ensures forall i :: 0 <= i < |data| && IsDrawn(data[i]) && data[i].legendLabel != "" ==>
      i in RunPad(data, env).legendRefs
  {
    RunPadLegend(data, env);
    ListedIndicesComplete(data);
  }

  /**
   * When no colour is negative (neither a datum's own nor a default), the
   * data index counts the draw calls made so far, the frame of a first ratio
   * included.
   */
  lemma {:induction false} DataIndexCountsDraws(data: seq<DataDescriptor>, env: Env)
    requires forall i :: 0 <= i < |data| ==> data[i].color >= 0
    requires forall k :: env.defaultColor(k) >= 0
    ensures RunPad(data, env).dataIndex == |RunPad(data, env).draws|
    decreases |data|
  {
    if |data| > 0 {
      var n := |data|;
      var init := data[..n - 1];
      assert forall k :: 0 <= k < |init| ==> init[k] == data[k];
      DataIndexCountsDraws(init, env);
      StepCountsDraws(RunPad(init, env), data[n - 1], n - 1, env);
    }
  }

  /** One pass keeps the data index equal to the number of draw calls, when no colour is negative. */
  lemma StepCountsDraws(st: PadState, d: DataDescriptor, i: nat, env: Env)
    requires d.color >= 0 && env.defaultColor(st.dataIndex) >= 0
    requires st.dataIndex == |st.draws|
    ensures Step(st, d, i, env).dataIndex == |Step(st, d, i, env).draws|
  {
    var res := Resolve(d, st.dataIndex, env);
    assert res.dataIndex == st.dataIndex;
  }

  /** A pad whose data are all skipped draws nothing, lists nothing, and keeps every datum's options. */
  lemma {:induction false} SkippedDataAccumulateOptions(data: seq<DataDescriptor>, env: Env)
    requires forall i :: 0 <= i < |data| ==> !IsDrawn(data[i])
    ensures RunPad(data, env).draws == [] && RunPad(data, env).labels == []
    ensures RunPad(data, env).options == AllOptions(data)
    decreases |data|
  {
    if |data| > 0 {
      var n := |data|;
      var init := data[..n - 1];
      assert forall k :: 0 <= k < |init| ==> init[k] == data[k];
      SkippedDataAccumulateOptions(init, env);
    }
  }

  /** The data's own options, one after the other. */
  function AllOptions(data: seq<DataDescriptor>): string
    decreases |data|
  {
    if |data| == 0 then "" else AllOptions(data[..|data| - 1]) + data[|data| - 1].options
  }

  /** The pad flags read from the control string. */
  datatype PadFlags = PadFlags(normalize: bool, thick: bool, logX: bool, logY: bool, logZ: bool,
                               gridX: bool, gridY: bool)

  function Flags(controlString: string): PadFlags {
    PadFlags(Contains(controlString, "normalize"), Contains(controlString, "thick"),
             Contains(controlString, "logX"), Contains(controlString, "logY"),
             Contains(controlString, "logZ"), Contains(controlString, "gridX"),
             Contains(controlString, "gridY"))
  }

  /** A flag is switched on by its keyword anywhere in the string: adding text on either side never switches one off. */
  lemma FlagsOnlyGrow(a: string, b: string)
    ensures var f := Flags(a); var g := Flags(a + b); var h := Flags(b + a);
      (f.normalize ==> g.normalize && h.normalize) && (f.thick ==> g.thick && h.thick) &&
      (f.logX ==> g.logX && h.logX) && (f.logY ==> g.logY && h.logY) &&
      (f.logZ ==> g.logZ && h.logZ) && (f.gridX ==> g.gridX && h.gridX) &&
      (f.gridY ==> g.gridY && h.gridY)
  {
    var keys := ["normalize", "thick", "logX", "logY", "logZ", "gridX", "gridY"];
    forall k | 0 <= k < |keys|
      ensures Contains(a, keys[k]) ==> Contains(a + b, keys[k]) && Contains(b + a, keys[k])
    {
      ContainsInConcat(a, b, keys[k]);
      ContainsInConcat(b, a, keys[k]);
    }
    assert keys[0] == "normalize" && keys[1] == "thick" && keys[2] == "logX" && keys[3] == "logY";
    assert keys[4] == "logZ" && keys[5] == "gridX" && keys[6] == "gridY";
  }

  /** The option composition of a drawn histogram. */
  method ComposeHistOptions(opts: string, is2D: bool, default2DStyle: string) returns (drawingOptions: string)
    ensures drawingOptions == HistOptions(opts, is2D, default2DStyle)
  {
    drawingOptions := opts;
    if is2D {
      drawingOptions := drawingOptions + " " + default2DStyle;
    }
    if Contains(drawingOptions, "none") {
      drawingOptions := EraseFirst(drawingOptions, "none");
    }
    if Contains(drawingOptions, "hist") {
      drawingOptions := drawingOptions + " HIST";
    } else if Contains(drawingOptions, "band") {
      drawingOptions := EraseFirst(drawingOptions, "band") + " E5";
    } else if Contains(drawingOptions, "boxes") {
      drawingOptions := EraseFirst(drawingOptions, "boxes") + " E2";
    }
  }

  /**
   * The draw calls of a datum that is drawn, by kind, with the options
   * accumulated so far, the resolved colour and marker, and the data index.
   */
  method PaintDrawn(d: DataDescriptor, i: nat, opts: string, color: int, style: int, dataIndex: int, env: Env)
    returns (draws: seq<Draw>, newIndex: int)
    requires IsDrawn(d)
    ensures Painted(draws, newIndex) == Paint(d, i, opts, Resolved(color, style, dataIndex), env)
  {
    var drawingOptions := opts;
    newIndex := dataIndex;
    draws := [];
    if d.kind == "hist" {
      var flags := Flags(env.controlString);
      drawingOptions := ComposeHistOptions(drawingOptions, d.is2D, env.default2DStyle);
      draws := [Drawn(i, d.kind, drawingOptions, color, style, flags.normalize, flags.thick)];
    } else if d.kind == "ratio" {
      var ratioColor, ratioStyle := color, style;
      if d.is2D {
        drawingOptions := drawingOptions + " " + env.default2DStyle;
      } else if newIndex == 0 {
        draws := [Frame];
        drawingOptions := drawingOptions + " SAME";
        newIndex := newIndex + 1;
        ratioColor := if d.color != 0 then d.color else env.defaultColor(newIndex);
        ratioStyle := if d.style != 0 then d.style else env.defaultMarker(newIndex);
      }
      if Contains(drawingOptions, "boxes") {
        drawingOptions := EraseFirst(drawingOptions, "boxes") + " E2";
      }
      draws := draws + [Drawn(i, d.kind, drawingOptions, ratioColor, ratioStyle, false, false)];
    } else {
      if Contains(drawingOptions, "boxes") {
        drawingOptions := "E2 SAME";
      }
      if newIndex == 0 {
        drawingOptions := drawingOptions + " AP";
      }
      draws := [Drawn(i, d.kind, drawingOptions, color, style, false, false)];
    }
  }

  /**
   * One pass of the per-data loop of GeneratePlot: resolve colour and marker,
   * append the datum's options, and, unless the datum is skipped, draw it,
   * reset the options, raise the data index and record its legend entry.
   */
  method PaintDatum(st: PadState, d: DataDescriptor, i: nat, env: Env) returns (r: PadState)
    ensures r == Step(st, d, i, env)
  {
    var drawingOptions := st.options;
    var dataIndex := st.dataIndex;
    var color := if d.color != 0 then d.color else env.defaultColor(dataIndex);
    var style := if d.style != 0 then d.style else env.defaultMarker(dataIndex);
    if color < 0 {
      dataIndex := dataIndex + color;
      color := env.defaultColor(dataIndex);
    }
    if style < 0 {
      style := env.defaultMarker(dataIndex);
    }
    assert Resolve(d, st.dataIndex, env) == Resolved(color, style, dataIndex);
    drawingOptions := drawingOptions + d.options;
    if !IsKnownKind(d.kind) || !d.available {
      // an unknown kind, or data that was not found: skipped
      return st.(options := drawingOptions, dataIndex := dataIndex);
    }
    var newDraws;
    newDraws, dataIndex := PaintDrawn(d, i, drawingOptions, color, style, dataIndex, env);
    dataIndex := dataIndex + 1;
    drawingOptions := Reset;
    var labels := st.labels;
    var errorStyles := st.errorStyles;
    var legendRefs := st.legendRefs;
    if d.legendLabel != "" {
      labels := labels + [d.legendLabel];
      legendRefs := legendRefs + [i];
      errorStyles := errorStyles + [d.options];
    }
    r := PadState(drawingOptions, dataIndex, labels, errorStyles, legendRefs, st.draws + newDraws);
  }

  /** The per-data loop of GeneratePlot for one pad, datum by datum. */
  method PaintPad(data: seq<DataDescriptor>, env: Env) returns (pad: PadState)
    ensures pad == RunPad(data, env)
  {
    pad := Initial;
    var i := 0;
    while i < |data|
      invariant 0 <= i <= |data|
      invariant pad == RunPad(data[..i], env)
    {
      assert data[..i + 1][..i] == data[..i];
      pad := PaintDatum(pad, data[i], i, env);
      i := i + 1;
    }
    assert data[..|data|] == data;
  }
}
