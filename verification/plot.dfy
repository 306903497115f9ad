/**
 * The plot description of the framework's newer interface: a plot with its
 * naming, dimensions and pads, the data and ratio entries of a pad with
 * their unique names and axis ranges, the placement of a text or legend box,
 * and a legend entry. Optional settings are `Option` values; an unset one is
 * `None`.
 */
module PlotDescription {
  import opened Optional
  import opened StringOps

  /** uint8_t: a pad identifier. */
  type PadId = x: int | 0 <= x < 0x100

  /** int32_t. */
  type Int32 = x: int | -0x8000_0000 <= x < 0x8000_0000

  /** dimension_t: the plot size and whether its aspect ratio is fixed. */
  datatype Dimensions = Dimensions(width: Option<Int32>, height: Option<Int32>, fixAspectRatio: Option<bool>)

  /** layout_t: colour, style and scale of a marker, line, fill or text; all unset by default. */
  datatype Layout = Layout(color: Option<int>, style: Option<int>, scale: Option<real>)

  const EmptyLayout := Layout(None, None, None)

  /** The unique name of a plot: name, separator, figure group, and ":" with the category when there is one. */
  function PlotUniqueName(name: string, figureGroup: string, figureCategory: string, separator: string): string {
    name + separator + figureGroup + (if figureCategory != "" then ":" + figureCategory else "")
  }

  /** The unique name of a data entry, and of the denominator of a ratio: name, separator, input identifier. */
  function DataUniqueName(name: string, inputIdentifier: string, separator: string): (r: string)
    ensures |r| == |name| + |separator| + |inputIdentifier|
    ensures r[..|name|] == name && r[|name| + |separator|..] == inputIdentifier
    ensures r[|name|..|name| + |separator|] == separator
  {
    name + separator + inputIdentifier
  }

  /** In a group without ':', the first ':' after the group marks the category, and there is none without one. */
  lemma FirstColonEndsGroup(group: string, category: string)
    requires ':' !in group
    ensures Find(group + (if category != "" then ":" + category else ""), ":") ==
            if category != "" then Some(|group|) else None
  {
    var s := group + (if category != "" then ":" + category else "");
    forall j: nat | j < |group|
      ensures !OccursAt(s, ":", j)
    {
      assert s[j..j + 1][0] == s[j] == group[j];
    }
    if category != "" {
      assert s[|group|..|group| + 1] == ":";
      assert OccursAt(s, ":", |group|);
    } else {
      forall j: nat
        ensures !OccursAt(s, ":", j)
      {
        if j < |group| {
          assert s[j..j + 1][0] == group[j];
        }
      }
    }
  }

  /**
   * For one plot name, the unique name tells figure group and category
   * apart as long as the groups hold no ':'.
   */
  lemma PlotUniqueNameInjective(name: string, separator: string, group1: string, category1: string,
                                group2: string, category2: string)
    requires ':' !in group1 && ':' !in group2
    requires PlotUniqueName(name, group1, category1, separator) == PlotUniqueName(name, group2, category2, separator)
    ensures group1 == group2 && category1 == category2
  {
    var prefix := |name| + |separator|;
    var u1 := PlotUniqueName(name, group1, category1, separator);
    var u2 := PlotUniqueName(name, group2, category2, separator);
    var s1 := group1 + (if category1 != "" then ":" + category1 else "");
    var s2 := group2 + (if category2 != "" then ":" + category2 else "");
    assert u1[prefix..] == s1;
    assert u2[prefix..] == s2;
    FirstColonEndsGroup(group1, category1);
    FirstColonEndsGroup(group2, category2);
    assert s1 == s2;
    if category1 != "" {
      assert |group1| == |group2|;
      assert group1 == s1[..|group1|];
      assert group2 == s2[..|group2|];
      assert category1 == s1[|group1| + 1..];
      assert category2 == s2[|group2| + 1..];
    } else {
      assert category2 == "";
      assert group1 == s1 && group2 == s2;
    }
  }

  /** With a ':' in a figure group, two different plots of the same name share a unique name. */
  lemma PlotUniqueNameCollides()
    ensures PlotUniqueName("pt", "data:2018", "", "_") == PlotUniqueName("pt", "data", "2018", "_")
  {
  }

  /** Pad: its own settings, all unset for a pad created by default. */
  class Pad {
    var title: Option<string>
    var options: Option<string>
    var palette: Option<Int32>
    var redrawAxes: Option<bool>
    var refFunc: Option<string>

    /** Pad() = default. */
    constructor ()
      ensures IsDefault()
    {
      title := None;
      options := None;
      palette := None;
      redrawAxes := None;
      refFunc := None;
    }

    predicate IsDefault()
      reads this
    {
      title.None? && options.None? && palette.None? && redrawAxes.None? && refFunc.None?
    }
  }

  /** Plot: name, group, category, template, dimensions and pads by identifier. */
  class Plot {
    var name: string
    var figureGroup: string
    var figureCategory: string
    var plotTemplateName: Option<string>
    var dimensions: Dimensions
    var pads: map<PadId, Pad>

    /** Plot() = default: empty names, nothing set, no pads. */
    constructor ()
      ensures name == "" && figureGroup == "" && figureCategory == ""
      ensures plotTemplateName == None && dimensions == Dimensions(None, None, None) && pads == map[]
    {
      name := "";
      figureGroup := "";
      figureCategory := "";
      plotTemplateName := None;
      dimensions := Dimensions(None, None, None);
      pads := map[];
    }

    function GetUniqueName(separator: string): (r: string)
      reads this
      ensures |r| >= |name| + |separator| + |figureGroup| && r[..|name|] == name
      ensures figureCategory == "" ==> r == name + separator + figureGroup
      ensures figureCategory != "" ==> r == name + separator + figureGroup + ":" + figureCategory
    {
      PlotUniqueName(name, figureGroup, figureCategory, separator)
    }

    method SetFigureGroup(figureGroup: string)
      modifies this
      ensures this.figureGroup == figureGroup
      ensures name == old(name) && figureCategory == old(figureCategory)
      ensures plotTemplateName == old(plotTemplateName) && dimensions == old(dimensions) && pads == old(pads)
    {
      this.figureGroup := figureGroup;
    }

    method SetFigureCategory(figureCategory: string)
      modifies this
      ensures this.figureCategory == figureCategory
      ensures name == old(name) && figureGroup == old(figureGroup)
      ensures plotTemplateName == old(plotTemplateName) && dimensions == old(dimensions) && pads == old(pads)
    {
      this.figureCategory := figureCategory;
    }

    method SetPlotTemplateName(plotTemplateName: string)
      modifies this
      ensures this.plotTemplateName == Some(plotTemplateName)
      ensures name == old(name) && figureGroup == old(figureGroup) && figureCategory == old(figureCategory)
      ensures dimensions == old(dimensions) && pads == old(pads)
    {
      this.plotTemplateName := Some(plotTemplateName);
    }

    /** All three dimensions are set together; fixAspectRatio defaults to false. */
    method SetDimensions(width: Int32, height: Int32, fixAspectRatio: bool := false)
      modifies this
      ensures dimensions == Dimensions(Some(width), Some(height), Some(fixAspectRatio))
      ensures name == old(name) && figureGroup == old(figureGroup) && figureCategory == old(figureCategory)
      ensures plotTemplateName == old(plotTemplateName) && pads == old(pads)
    {
      dimensions := Dimensions(Some(width), Some(height), Some(fixAspectRatio));
    }

    method SetWidth(width: Int32)
      modifies this
      ensures dimensions == old(dimensions).(width := Some(width))
      ensures name == old(name) && figureGroup == old(figureGroup) && figureCategory == old(figureCategory)
      ensures plotTemplateName == old(plotTemplateName) && pads == old(pads)
    {
      dimensions := dimensions.(width := Some(width));
    }

    method SetHeight(height: Int32)
      modifies this
      ensures dimensions == old(dimensions).(height := Some(height))
      ensures name == old(name) && figureGroup == old(figureGroup) && figureCategory == old(figureCategory)
      ensures plotTemplateName == old(plotTemplateName) && pads == old(pads)
    {
      dimensions := dimensions.(height := Some(height));
    }

    /** fixAspectRatio defaults to true. */
    method SetFixAspectRatio(fixAspectRatio: bool := true)
      modifies this
      ensures dimensions == old(dimensions).(fixAspectRatio := Some(fixAspectRatio))
      ensures name == old(name) && figureGroup == old(figureGroup) && figureCategory == old(figureCategory)
      ensures plotTemplateName == old(plotTemplateName) && pads == old(pads)
    {
      dimensions := dimensions.(fixAspectRatio := Some(fixAspectRatio));
    }

    /**
     * operator[] and GetPad: the pad stored under the identifier; a default
     * pad is stored first when there is none.
     */
    method GetPad(padID: PadId) returns (pad: Pad)
      modifies this
      ensures padID in old(pads) ==> pads == old(pads) && pad == old(pads)[padID]
      ensures padID !in old(pads) ==> fresh(pad) && pad.IsDefault() && pads == old(pads)[padID := pad]
      ensures padID in pads && pads[padID] == pad
      ensures name == old(name) && figureGroup == old(figureGroup) && figureCategory == old(figureCategory)
      ensures plotTemplateName == old(plotTemplateName) && dimensions == old(dimensions)
    {
      if padID in pads {
        pad := pads[padID];
      } else {
        pad := new Pad();
        pads := pads[padID := pad];
      }
    }

    /** The defaults shared by all pads live in pad 0. */
    method GetPadDefaults() returns (pad: Pad)
      modifies this
      ensures 0 in old(pads) ==> pads == old(pads) && pad == old(pads)[0]
      ensures 0 !in old(pads) ==> fresh(pad) && pad.IsDefault() && pads == old(pads)[0 := pad]
      ensures 0 in pads && pads[0] == pad
      ensures name == old(name) && figureGroup == old(figureGroup) && figureCategory == old(figureCategory)
      ensures plotTemplateName == old(plotTemplateName) && dimensions == old(dimensions)
    {
      pad := GetPad(0);
    }
  }

  /** dataRange_t: the axis range of a data entry; an unset bound is None. */
  datatype Range = Range(min: Option<real>, max: Option<real>)

  const Unset := Range(None, None)

  /** Data: a data entry of a pad, with its axis ranges. */
  class Data {
    var name: string
    var inputIdentifier: string
    var rangeX: Range
    var rangeY: Range

    constructor (name: string, inputIdentifier: string)
      ensures this.name == name && this.inputIdentifier == inputIdentifier
      ensures rangeX == Unset && rangeY == Unset
    {
      this.name := name;
      this.inputIdentifier := inputIdentifier;
      rangeX := Unset;
      rangeY := Unset;
    }

    function GetUniqueName(separator: string): (r: string)
      reads this
      ensures r == DataUniqueName(name, inputIdentifier, separator)
    {
      DataUniqueName(name, inputIdentifier, separator)
    }

    method SetRangeX(min: real, max: real)
      modifies this
      ensures rangeX == Range(Some(min), Some(max))
      ensures rangeY == old(rangeY) && name == old(name) && inputIdentifier == old(inputIdentifier)
    {
      rangeX := Range(Some(min), Some(max));
    }

    method UnsetRangeX()
      modifies this
      ensures rangeX == Unset
      ensures rangeY == old(rangeY) && name == old(name) && inputIdentifier == old(inputIdentifier)
    {
      rangeX := Unset;
    }

    method UnsetRangeY()
      modifies this
      ensures rangeY == Unset
      ensures rangeX == old(rangeX) && name == old(name) && inputIdentifier == old(inputIdentifier)
    {
      rangeY := Unset;
    }
  }

  /** Ratio: a data entry (its numerator part) divided by a denominator named by name and input identifier. */
  class Ratio {
    const data: Data
    var denomName: string
    var denomInputIdentifier: string

    constructor (name: string, inputIdentifier: string, denomName: string, denomInputIdentifier: string)
      ensures fresh(data) && data.name == name && data.inputIdentifier == inputIdentifier
      ensures data.rangeX == Unset && data.rangeY == Unset
      ensures this.denomName == denomName && this.denomInputIdentifier == denomInputIdentifier
    {
      data := new Data(name, inputIdentifier);
      this.denomName := denomName;
      this.denomInputIdentifier := denomInputIdentifier;
    }

    /** The denominator is looked up under the unique name a data entry of that name and input would have. */
    function GetUniqueNameDenom(separator: string): (r: string)
      reads this
      ensures r == DataUniqueName(denomName, denomInputIdentifier, separator)
    {
      DataUniqueName(denomName, denomInputIdentifier, separator)
    }

    /** UnsetRangeX as the header defines it: it forwards to the Y-range reset of the data part. */
    method UnsetRangeX()
      modifies data
      ensures data.rangeY == Unset && data.rangeX == old(data.rangeX)
      ensures data.name == old(data.name) && data.inputIdentifier == old(data.inputIdentifier)
    {
      data.UnsetRangeY();
    }

    /** UnsetRangeX as its name and every other forwarder of Ratio intend: the X-range reset of the data part. */
    method UnsetRangeXIntended()
      modifies data
      ensures data.rangeX == Unset && data.rangeY == old(data.rangeY)
      ensures data.name == old(data.name) && data.inputIdentifier == old(data.inputIdentifier)
    {
      data.UnsetRangeX();
    }

    method UnsetRangeY()
      modifies data
      ensures data.rangeY == Unset && data.rangeX == old(data.rangeX)
      ensures data.name == old(data.name) && data.inputIdentifier == old(data.inputIdentifier)
    {
      data.UnsetRangeY();
    }
  }

  /** A data entry named like a ratio's denominator is the one the ratio finds. */
  lemma DenominatorFindsData(r: Ratio, d: Data, separator: string)
    requires d.name == r.denomName && d.inputIdentifier == r.denomInputIdentifier
    ensures d.GetUniqueName(separator) == r.GetUniqueNameDenom(separator)
  {
  }

  /** Denominators whose names have the same length are found under distinct names when they differ in name or input. */
  lemma DenominatorNamesDiffer(name1: string, id1: string, name2: string, id2: string, separator: string)
    requires |name1| == |name2| && (name1 != name2 || id1 != id2)
    ensures DataUniqueName(name1, id1, separator) != DataUniqueName(name2, id2, separator)
  {
    var u1 := DataUniqueName(name1, id1, separator);
    var u2 := DataUniqueName(name2, id2, separator);
    if name1 != name2 {
      assert u1[..|name1|] != u2[..|name2|];
    } else {
      assert u1[|name1| + |separator|..] != u2[|name2| + |separator|..];
    }
  }

  /**
   * After Ratio::UnsetRangeX an X range that was set is still set: the
   * range (0, 1) survives the call.
   */
  method UnsetRangeXKeepsRangeX() returns (rangeX: Range)
    ensures rangeX == Range(Some(0.0), Some(1.0))
  {
    var ratio := new Ratio("pt", "data", "pt", "mc");
    ratio.data.SetRangeX(0.0, 1.0);
    ratio.UnsetRangeX();
    rangeX := ratio.data.rangeX;
  }

  /** The intended reset clears that same range. */
  method UnsetRangeXIntendedClears() returns (rangeX: Range)
    ensures rangeX == Unset
  {
    var ratio := new Ratio("pt", "data", "pt", "mc");
    ratio.data.SetRangeX(0.0, 1.0);
    ratio.UnsetRangeXIntended();
    rangeX := ratio.data.rangeX;
  }

  /** position_t: where a box goes, and whether in user coordinates. */
  class Box {
    var x: Option<real>
    var y: Option<real>
    var isUserCoord: Option<bool>

    /** Box() = default: no position, no coordinate choice. */
    constructor ()
      ensures x == None && y == None && isUserCoord == None
    {
      x := None;
      y := None;
      isUserCoord := None;
    }

    /** The x position, 0 when unset. */
    function GetXPosition(): (r: real)
      reads this
      ensures x.Some? ==> r == x.value
      ensures x.None? ==> r == 0.0
    {
      if x.Some? then x.value else 0.0
    }

    /** The y position, 0 when unset. */
    function GetYPosition(): (r: real)
      reads this
      ensures y.Some? ==> r == y.value
      ensures y.None? ==> r == 0.0
    {
      if y.Some? then y.value else 0.0
    }

    /** User coordinates only when explicitly chosen. */
    predicate IsUserCoordinates()
      reads this
      ensures IsUserCoordinates() <==> isUserCoord == Some(true)
    {
      if isUserCoord.Some? then isUserCoord.value else false
    }

    /** The box is placed automatically unless both coordinates are set. */
    predicate IsAutoPlacement()
      reads this
      ensures IsAutoPlacement() <==> !(x.Some? && y.Some?)
    {
      x.None? || y.None?
    }
  }

  /** A box that is not placed automatically sits exactly at its stored position. */
  lemma PlacedBoxUsesStoredPosition(b: Box)
    requires !b.IsAutoPlacement()
    ensures b.x == Some(b.GetXPosition()) && b.y == Some(b.GetYPosition())
  {
  }

  /** A default box is placed automatically, at (0, 0), not in user coordinates. */
  method DefaultBox() returns (autoPlaced: bool, xPos: real, yPos: real, userCoordinates: bool)
    ensures autoPlaced && xPos == 0.0 && yPos == 0.0 && !userCoordinates
  {
    var b := new Box();
    autoPlaced := b.IsAutoPlacement();
    xPos := b.GetXPosition();
    yPos := b.GetYPosition();
    userCoordinates := b.IsUserCoordinates();
  }

  /** LegendEntry: a label, the data it refers to, a draw style, and its layouts. */
  class LegendEntry {
    var lable: Option<string>
    var refDataName: Option<string>
    var drawStyle: Option<string>
    var fill: Layout
    var marker: Layout
    var line: Layout
    var text: Layout

    /** Stores the three given settings (each unset by default); every layout starts empty. */
    constructor (lable: Option<string> := None, refDataName: Option<string> := None,
                 drawStyle: Option<string> := None)
      ensures this.lable == lable && this.refDataName == refDataName && this.drawStyle == drawStyle
      ensures fill == EmptyLayout && marker == EmptyLayout && line == EmptyLayout && text == EmptyLayout
    {
      fill := EmptyLayout;
      marker := EmptyLayout;
      line := EmptyLayout;
      text := EmptyLayout;
      this.lable := lable;
      this.refDataName := refDataName;
      this.drawStyle := drawStyle;
    }
  }
}
