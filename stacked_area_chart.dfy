/** The stacked area chart: the `Areas` layer (hover tracking and the area
    outlines) and the chart itself (legend midpoints and label marks, focus and
    blur, the tooltip total, the available times and its own colour scale). */
module StackedArea {
  import opened Util
  import opened Axes
  import opened OwidTable
  import opened ColorSchemes
  import opened AbstractStackedChart

  const BlurColor: Color := "#ddd"

  // ------------------------------------------------------------ hover index

  /** How far a point is plotted from the pointer horizontally. */
  function Gap(dualAxis: DualAxis, point: StackedPoint, mouse: Point): real {
    Abs(dualAxis.placeX(point.x) - mouse.x)
  }

  /** The index `onCursorMove` settles on: none when the pointer is outside the
      plotting area or there are no points; otherwise the index of the point
      plotted nearest the pointer, the first one on ties. */
  function HoverIndexAt(dualAxis: DualAxis, points: seq<StackedPoint>, mouse: Point): (index: Option<nat>)
    ensures index.None? <==> !dualAxis.innerBoundsContains(mouse) || points == []
    ensures index.Some? ==> index.value < |points|
    ensures index.Some? ==> forall j :: 0 <= j < |points| ==>
      Gap(dualAxis, points[index.value], mouse) <= Gap(dualAxis, points[j], mouse)
    ensures index.Some? ==> forall j :: 0 <= j < index.value ==>
      Gap(dualAxis, points[index.value], mouse) < Gap(dualAxis, points[j], mouse)
  {
    if !dualAxis.innerBoundsContains(mouse) || points == [] then None
    else
      var gaps := seq(|points|, j requires 0 <= j < |points| => Gap(dualAxis, points[j], mouse));
      assert forall j :: 0 <= j < |points| ==> gaps[j] == Gap(dualAxis, points[j], mouse);
      Some(MinByIndex(gaps))
  }

  // ------------------------------------------------------------ focus and blur

  /** `focusedSeriesNames`: the hovered legend key when one is set (an empty key
      is falsy and counts as unset). */
  function FocusedSeriesNames(hoverKey: Option<string>): (names: seq<SeriesName>)
    ensures |names| <= 1
    ensures names != [] <==> hoverKey.Some? && hoverKey.value != ""
    ensures forall name :: name in names ==> hoverKey == Some(name)
  {
    if hoverKey.Some? && hoverKey.value != "" then [hoverKey.value] else []
  }

  /** `seriesIsBlur`, shared by the chart and its `Areas` layer. */
  predicate SeriesIsBlur(focusedSeriesNames: seq<SeriesName>, name: SeriesName) {
    |focusedSeriesNames| > 0 && name !in focusedSeriesNames
  }

  /** A series is blurred exactly when a legend key is hovered and it is another series. */
  lemma BlurredIffOtherKeyHovered(hoverKey: Option<string>, name: SeriesName)
    ensures SeriesIsBlur(FocusedSeriesNames(hoverKey), name) <==>
      hoverKey.Some? && hoverKey.value != "" && name != hoverKey.value
  {
  }

  // ------------------------------------------------------------ the chart's own state

  class StackedAreaChart {
    /** The hovered time index, as reported by the `Areas` layer. */
    var hoverIndex: Option<nat>
    /** The hovered legend entry. */
    var hoverKey: Option<string>

    constructor ()
      ensures hoverIndex == None && hoverKey == None
    {
      hoverIndex := None;
      hoverKey := None;
    }

    /** `onHover`. */
    method OnHover(index: Option<nat>)
      modifies this`hoverIndex
      ensures hoverIndex == index
    {
      hoverIndex := index;
    }

    /** `onLegendMouseOver`. */
    method OnLegendMouseOver(key: EntityName)
      modifies this`hoverKey
      ensures hoverKey == Some(key)
    {
      hoverKey := Some(key);
    }

    /** `onLegendMouseLeave`. */
    method OnLegendMouseLeave()
      modifies this`hoverKey
      ensures hoverKey == None
    {
      hoverKey := None;
    }

    function Focused(): seq<SeriesName>
      reads this`hoverKey
    {
      FocusedSeriesNames(hoverKey)
    }

    /** `isFocusMode`. */
    predicate IsFocusMode()
      reads this`hoverKey
      ensures IsFocusMode() <==> hoverKey.Some? && hoverKey.value != ""
    {
      |Focused()| > 0
    }

    /** The tooltip at the current hover index, with the missing-point read
        corrected (see `TooltipAsWritten` for the getter as it stands). */
    function Tooltip(series: seq<StackedSeries>): (tooltip: TooltipOutcome)
      reads this`hoverIndex
      ensures tooltip.NoTooltip? <==> hoverIndex.None?
      ensures tooltip.Thrown? <==> hoverIndex.Some? && (series == [] || hoverIndex.value >= |series[0].points|)
      ensures tooltip.Rendered? ==> (tooltip.total.None? <==> SomeMissing(series, hoverIndex.value))
      ensures tooltip.Rendered? ==> tooltip.total == TooltipTotal(series, hoverIndex.value)
    {
      TooltipIntended(series, hoverIndex)
    }
  }

  // ------------------------------------------------------------ the Areas layer

  /** The placed top edge of a series: each point at `(place(x), place(y + yOffset))`. */
  function PlacedTop(dualAxis: DualAxis, series: StackedSeries): (edge: seq<(real, real)>)
    ensures |edge| == |series.points|
    ensures forall j :: 0 <= j < |series.points| ==>
      edge[j] == (dualAxis.placeX(series.points[j].x),
                  dualAxis.placeY(series.points[j].y + series.points[j].yOffset))
  {
    seq(|series.points|, j requires 0 <= j < |series.points| =>
      (dualAxis.placeX(series.points[j].x),
       dualAxis.placeY(series.points[j].y + series.points[j].yOffset)))
  }

  /** `[xBottomLeft, xBottomRight]`. */
  function BottomCorners(dualAxis: DualAxis): seq<(real, real)> {
    [(dualAxis.horizontalRange.0, dualAxis.verticalRange.0),
     (dualAxis.horizontalRange.1, dualAxis.verticalRange.0)]
  }

  datatype AreaPath = AreaPath(seriesName: SeriesName, outline: seq<(real, real)>, fill: Option<Color>)

  /** Area `k`: its own top edge, then back along the top edge of series `k - 1`
      (the bottom corners for the first series), filled grey when blurred. */
  function AreaAt(dualAxis: DualAxis, seriesArr: seq<StackedSeries>, focused: seq<SeriesName>, k: nat): AreaPath
    requires k < |seriesArr|
  {
    var below := if k == 0 then BottomCorners(dualAxis) else PlacedTop(dualAxis, seriesArr[k - 1]);
    AreaPath(seriesArr[k].seriesName,
             PlacedTop(dualAxis, seriesArr[k]) + Reversed(below),
             if SeriesIsBlur(focused, seriesArr[k].seriesName) then Some(BlurColor) else seriesArr[k].color)
  }

  /** Each outline closes against what lies below it: after its own top edge come
      the previous series' top points from right to left, or for the first series
      the bottom-right then the bottom-left corner. */
  lemma {:induction false} AreaClosesBelow(dualAxis: DualAxis, seriesArr: seq<StackedSeries>, focused: seq<SeriesName>, k: nat)
    requires k < |seriesArr|
    ensures var outline := AreaAt(dualAxis, seriesArr, focused, k).outline;
      var n := |seriesArr[k].points|;
      && outline[..n] == PlacedTop(dualAxis, seriesArr[k])
      && (k == 0 ==> outline[n..] == [BottomCorners(dualAxis)[1], BottomCorners(dualAxis)[0]])
      && (k > 0 ==>
            outline[n..] == Reversed(PlacedTop(dualAxis, seriesArr[k - 1])))
  {
    var outline := AreaAt(dualAxis, seriesArr, focused, k).outline;
    var n := |seriesArr[k].points|;
    var top := PlacedTop(dualAxis, seriesArr[k]);
    var below := if k == 0 then BottomCorners(dualAxis) else PlacedTop(dualAxis, seriesArr[k - 1]);
    assert outline == top + Reversed(below);
    assert outline[..n] == top;
    assert outline[n..] == Reversed(below);
  }

  class Areas {
    const dualAxis: DualAxis
    const seriesArr: seq<StackedSeries>
    const focusedSeriesNames: seq<SeriesName>
    /** The owner whose `onHover` receives every change of the hover index. */
    const chart: StackedAreaChart
    var hoverIndex: Option<nat>

    constructor (dualAxis: DualAxis, seriesArr: seq<StackedSeries>, focusedSeriesNames: seq<SeriesName>, chart: StackedAreaChart)
      ensures this.dualAxis == dualAxis && this.seriesArr == seriesArr
      ensures this.focusedSeriesNames == focusedSeriesNames && this.chart == chart
      ensures hoverIndex == None
    {
      this.dualAxis := dualAxis;
      this.seriesArr := seriesArr;
      this.focusedSeriesNames := focusedSeriesNames;
      this.chart := chart;
      hoverIndex := None;
    }

    /** `onCursorMove`: finds the hover index over the first series and reports it.
        The layer is only mounted once the chart has series to draw. */
    method OnCursorMove(mouse: Point)
      requires |seriesArr| > 0
      modifies this`hoverIndex, chart`hoverIndex
      ensures hoverIndex == HoverIndexAt(dualAxis, seriesArr[0].points, mouse)
      ensures chart.hoverIndex == hoverIndex
      ensures hoverIndex.Some? ==> hoverIndex.value < |seriesArr[0].points|
    {
      hoverIndex := HoverIndexAt(dualAxis, seriesArr[0].points, mouse);
      chart.OnHover(hoverIndex);
    }

    /** `onCursorLeave`: clears the hover index and reports it. */
    method OnCursorLeave()
      modifies this`hoverIndex, chart`hoverIndex
      ensures hoverIndex == None && chart.hoverIndex == None
    {
      hoverIndex := None;
      chart.OnHover(hoverIndex);
    }

    /** `areas`: maps over the series carrying the previous top edge along. */
    method Outlines() returns (paths: seq<AreaPath>)
      ensures |paths| == |seriesArr|
      ensures forall k :: 0 <= k < |seriesArr| ==> paths[k] == AreaAt(dualAxis, seriesArr, focusedSeriesNames, k)
    {
      var prevPoints := BottomCorners(dualAxis);
      paths := [];
      var k := 0;
      while k < |seriesArr|
        invariant 0 <= k <= |seriesArr|
        invariant |paths| == k
        invariant forall i :: 0 <= i < k ==> paths[i] == AreaAt(dualAxis, seriesArr, focusedSeriesNames, i)
        invariant prevPoints == if k == 0 then BottomCorners(dualAxis) else PlacedTop(dualAxis, seriesArr[k - 1])
      {
        var series := seriesArr[k];
        var mainPoints := PlacedTop(dualAxis, series);
        var points := mainPoints + Reversed(prevPoints);
        prevPoints := mainPoints;
        var fill := if SeriesIsBlur(focusedSeriesNames, series.seriesName) then Some(BlurColor) else series.color;
        paths := paths + [AreaPath(series.seriesName, points, fill)];
        k := k + 1;
      }
    }
  }

  // ------------------------------------------------------------ legend midpoints and marks

  /** The top of a series' last point. */
  function LastTop(series: StackedSeries): real
    requires series.points != []
  {
    var last := series.points[|series.points| - 1];
    last.y + last.yOffset
  }

  /** `prevY` when series `i` is reached: the last top of the nearest earlier
      series that has points, 0 when there is none. */
  function PrevTop(series: seq<StackedSeries>, i: nat): real
    requires i <= |series|
  {
    if i == 0 then 0.0
    else if series[i - 1].points == [] then PrevTop(series, i - 1)
    else LastTop(series[i - 1])
  }

  /** The legend midpoint of series `i`: 0 for a series without points, otherwise
      halfway between `prevY` and its own last top. */
  function MidpointAt(series: seq<StackedSeries>, i: nat): real
    requires i < |series|
  {
    if series[i].points == [] then 0.0
    else PrevTop(series, i) + (LastTop(series[i]) - PrevTop(series, i)) / 2.0
  }

  /** `midpoints`: one entry per series, computed with a running `prevY`. */
  method Midpoints(series: seq<StackedSeries>) returns (midpoints: seq<real>)
    ensures |midpoints| == |series|
    ensures forall i :: 0 <= i < |series| ==> midpoints[i] == MidpointAt(series, i)
  {
    var prevY := 0.0;
    midpoints := [];
    var i := 0;
    while i < |series|
      invariant 0 <= i <= |series|
      invariant |midpoints| == i
      invariant forall k :: 0 <= k < i ==> midpoints[k] == MidpointAt(series, k)
      invariant prevY == PrevTop(series, i)
    {
      var points := series[i].points;
      if points == [] {
        midpoints := midpoints + [0.0];
      } else {
        var last := points[|points| - 1];
        var y := last.y + last.yOffset;
        var middleY := prevY + (y - prevY) / 2.0;
        prevY := y;
        midpoints := midpoints + [middleY];
      }
      i := i + 1;
    }
  }

  /** A series with no points leaves `prevY` as it was. */
  lemma {:induction false} EmptySeriesKeepsPrevTop(series: seq<StackedSeries>, i: nat)
    requires i < |series| && series[i].points == []
    ensures PrevTop(series, i + 1) == PrevTop(series, i)
    ensures MidpointAt(series, i) == 0.0
  {
  }

  datatype LabelMark = LabelMark(color: Option<Color>, seriesName: SeriesName, displayLabel: string, yValue: real)

  /** `labelMarks`: one mark per series, in reverse series order, each carrying
      that series' midpoint and its label from the input table. */
  function LabelMarks(props: Props, reader: TableReader, series: seq<StackedSeries>): (marks: seq<LabelMark>)
    ensures |marks| == |series|
    ensures forall j :: 0 <= j < |series| ==>
      var s := series[|series| - 1 - j];
      marks[j] == LabelMark(s.color, s.seriesName,
                            reader.labelForEntityName(props.manager.table, s.seriesName),
                            MidpointAt(series, |series| - 1 - j))
  {
    Reversed(seq(|series|, i requires 0 <= i < |series| =>
      LabelMark(series[i].color, series[i].seriesName,
                reader.labelForEntityName(props.manager.table, series[i].seriesName),
                MidpointAt(series, i))))
  }

  // ------------------------------------------------------------ tooltip and times

  /** `someMissing`: some series has no point at the index. */
  predicate SomeMissing(series: seq<StackedSeries>, hoverIndex: nat) {
    exists k :: 0 <= k < |series| && hoverIndex >= |series[k].points|
  }

  /** The tooltip's total row as its `someMissing` guard intends: omitted when any
      series lacks a point at the index, otherwise the last series' `y` there. */
  function TooltipTotal(series: seq<StackedSeries>, hoverIndex: nat): (total: Option<real>)
    requires |series| > 0
    ensures total.Some? <==> forall k :: 0 <= k < |series| ==> hoverIndex < |series[k].points|
    ensures total.Some? ==> total.value == series[|series| - 1].points[hoverIndex].y
  {
    if SomeMissing(series, hoverIndex) then None
    else Some(series[|series| - 1].points[hoverIndex].y)
  }

  /** What the `tooltip` getter yields: nothing without a hover index, a throw, or
      a rendered tooltip whose total row is shown (`Some`) or omitted (`None`). */
  datatype TooltipOutcome = NoTooltip | Thrown | Rendered(total: Option<real>)

  /** The `tooltip` getter as written. It reads `series[0]` and the x of its point
      at the index, then the `y` of every series' point at the index, all before
      the `someMissing` guard of the total row; so any missing point throws and
      the guard never omits the total. */
  function TooltipAsWritten(series: seq<StackedSeries>, hoverIndex: Option<nat>): (tooltip: TooltipOutcome)
    ensures tooltip.NoTooltip? <==> hoverIndex.None?
    ensures tooltip.Thrown? <==> hoverIndex.Some? && (series == [] || SomeMissing(series, hoverIndex.value))
    ensures tooltip.Rendered? ==> tooltip.total.Some? && tooltip.total == TooltipTotal(series, hoverIndex.value)
  {
    match hoverIndex
    case None => NoTooltip
    case Some(i) =>
      if series == [] || SomeMissing(series, i) then Thrown
      else Rendered(Some(series[|series| - 1].points[i].y))
  }

  /** The `tooltip` getter with each row reading a missing point as "No data":
      only the first series' point at the index, whose x places the tooltip, must
      exist, and the total row follows `TooltipTotal`. */
  function TooltipIntended(series: seq<StackedSeries>, hoverIndex: Option<nat>): (tooltip: TooltipOutcome)
    ensures tooltip.NoTooltip? <==> hoverIndex.None?
    ensures tooltip.Thrown? <==> hoverIndex.Some? && (series == [] || hoverIndex.value >= |series[0].points|)
    ensures tooltip.Rendered? ==> (tooltip.total.None? <==> SomeMissing(series, hoverIndex.value))
    ensures tooltip.Rendered? ==> tooltip.total == TooltipTotal(series, hoverIndex.value)
  {
    match hoverIndex
    case None => NoTooltip
    case Some(i) =>
      if series == [] || i >= |series[0].points| then Thrown
      else Rendered(TooltipTotal(series, i))
  }

  /** The two agree wherever the getter as written renders; where only the first
      series has a point at the index, the getter throws instead of omitting the
      total. */
  lemma TooltipAsWrittenVersusIntended(series: seq<StackedSeries>, hoverIndex: Option<nat>)
    ensures TooltipAsWritten(series, hoverIndex).Rendered? ==>
      TooltipIntended(series, hoverIndex) == TooltipAsWritten(series, hoverIndex)
    ensures (hoverIndex.Some? && series != [] && hoverIndex.value < |series[0].points| &&
             SomeMissing(series, hoverIndex.value)) ==>
      TooltipAsWritten(series, hoverIndex).Thrown? && TooltipIntended(series, hoverIndex) == Rendered(None)
  {
  }

  /** A second series one point shorter than the first: at the first series' last
      index the getter as written throws, while the intended tooltip omits the total. */
  lemma ShorterSeriesTooltip()
    ensures var p := StackedPoint(2000, 1.0, 0.0);
      var series := [StackedSeries("A", false, [p, p, p], None), StackedSeries("B", false, [p, p], None)];
      TooltipAsWritten(series, Some(2)) == Thrown && TooltipIntended(series, Some(2)) == Rendered(None)
  {
    var p := StackedPoint(2000, 1.0, 0.0);
    var series := [StackedSeries("A", false, [p, p, p], None), StackedSeries("B", false, [p, p], None)];
    assert 2 >= |series[1].points|;
  }

  /** `availableTimes`: the x values of the first series, none without series. */
  function AvailableTimes(series: seq<StackedSeries>): (times: seq<int>)
    ensures series == [] ==> times == []
    ensures series != [] ==>
      && |times| == |series[0].points|
      && forall j :: 0 <= j < |times| ==> times[j] == series[0].points[j].x
  {
    if series == [] then []
    else seq(|series[0].points|, j requires 0 <= j < |series[0].points| => series[0].points[j].x)
  }

  /** The available times of the chart's series are the times of the first raw
      series that has rows. */
  lemma AvailableTimesOfFirstKept(raw: seq<RawSeries>, colorOf: SeriesName -> Option<Color>)
    ensures KeptPositions(raw) == [] ==> AvailableTimes(UnstackedSeries(raw, colorOf)) == []
    ensures KeptPositions(raw) != [] ==>
      var rows := raw[KeptPositions(raw)[0]].rows;
      var times := AvailableTimes(UnstackedSeries(raw, colorOf));
      |times| == |rows| && forall j :: 0 <= j < |rows| ==> times[j] == rows[j].time
  {
    UnstackedSeriesSpec(raw, colorOf);
  }

  // ------------------------------------------------------------ colours

  /** `colorScheme`: `ColorSchemes[baseColorScheme as string]`, where an unset name
      is looked up as the key "undefined", falling back to `stackedAreaDefault`. */
  function AreaColorScheme(registry: Registry, baseColorScheme: Option<string>): (scheme: ColorScheme)
    requires StackedAreaDefault in registry
    ensures baseColorScheme.Some? && baseColorScheme.value in registry ==>
      scheme == registry[baseColorScheme.value]
    ensures baseColorScheme.Some? && baseColorScheme.value !in registry ==>
      scheme == registry[StackedAreaDefault]
    ensures baseColorScheme.None? && "undefined" !in registry ==> scheme == registry[StackedAreaDefault]
  {
    var key := if baseColorScheme.Some? then baseColorScheme.value else "undefined";
    if key in registry then registry[key] else registry[StackedAreaDefault]
  }

  /** The two scheme lookups agree on every set, non-empty name. They differ only
      where `as string` shows: an unset name is looked up under the key
      "undefined", and an empty name is looked up as it is, where the base class
      falls back to `stackedAreaDefault` for both. */
  lemma SchemeLookupsCompared(registry: Registry, baseColorScheme: Option<string>)
    requires StackedAreaDefault in registry
    ensures baseColorScheme.Some? && baseColorScheme.value != "" ==>
      AreaColorScheme(registry, baseColorScheme) == BaseColorScheme(registry, baseColorScheme)
    ensures baseColorScheme.None? ==>
      AreaColorScheme(registry, baseColorScheme) ==
        (if "undefined" in registry then registry["undefined"] else registry[StackedAreaDefault])
    ensures baseColorScheme.None? ==> BaseColorScheme(registry, baseColorScheme) == registry[StackedAreaDefault]
    ensures baseColorScheme == Some("") ==>
      AreaColorScheme(registry, baseColorScheme) ==
        (if "" in registry then registry[""] else registry[StackedAreaDefault])
  {
  }

  /** The palette behind `colorScale`. */
  function ColorScalePalette(props: Props, reader: TableReader, registry: Registry): seq<Color>
    requires StackedAreaDefault in registry
  {
    Palette(AreaColorScheme(registry, props.manager.baseColorScheme),
            SeriesCount(props, reader), props.manager.invertColorScheme)
  }

  /** `colorScale`'s palette, built in place as the getter does. */
  method BuildColorScale(props: Props, reader: TableReader, registry: Registry) returns (colors: seq<Color>)
    requires StackedAreaDefault in registry
    ensures colors == ColorScalePalette(props, reader, registry)
    ensures props.manager.invertColorScheme ==>
      colors == Reversed(Palette(AreaColorScheme(registry, props.manager.baseColorScheme), SeriesCount(props, reader), false))
  {
    var scheme := AreaColorScheme(registry, props.manager.baseColorScheme);
    colors := BuildPalette(scheme, SeriesCount(props, reader), props.manager.invertColorScheme);
    InvertedPaletteMirrors(scheme, SeriesCount(props, reader));
  }

  /** `getColorForSeries` as this chart overrides it: the table's entity colour
      when it is a non-empty string, else the ordinal scale, which is undefined
      only when the palette is empty. */
  function AreaColorForSeries(props: Props, reader: TableReader, registry: Registry, slot: string -> nat, name: SeriesName): (color: Option<Color>)
    requires StackedAreaDefault in registry
    ensures var own := reader.colorForEntityName(TransformedTable(props), name);
      && (own.Some? && own.value != "" ==> color == own)
      && (!(own.Some? && own.value != "") ==> color == OrdinalColor(ColorScalePalette(props, reader, registry), slot, name))
      && (color.None? <==> !(own.Some? && own.value != "") && ColorScalePalette(props, reader, registry) == [])
  {
    var own := reader.colorForEntityName(TransformedTable(props), name);
    if own.Some? && own.value != "" then own
    else OrdinalColor(ColorScalePalette(props, reader, registry), slot, name)
  }

  /** The series this chart draws: `unstackedSeries` coloured by its own override.
      It throws exactly when the raw series do, and each series carries the colour
      the override gives its name. */
  function AreaSeries(props: Props, reader: TableReader, registry: Registry, slot: string -> nat): (series: Option<seq<StackedSeries>>)
    requires StackedAreaDefault in registry
    ensures series.None? <==> IsEntitySeries(props.manager) && YColumnSlugs(props.manager) == []
    ensures series.Some? ==> forall i :: 0 <= i < |series.value| ==>
      series.value[i].color == AreaColorForSeries(props, reader, registry, slot, series.value[i].seriesName)
  {
    RawSeriesDefined(props, reader);
    SeriesOf(props, reader, name => AreaColorForSeries(props, reader, registry, slot, name))
  }
}
