/** The data side of the stacked-chart base class `AbstactStackedChart`: the table
    transform, the y columns, the raw series by entity or by column, the points,
    the failure message, the two axis parts and the colour fallback chain.
    Its getters are pure; `transformTable` reassigns a local table step by step. */
module AbstractStackedChart {
  import opened Util
  import opened Axes
  import opened OwidTable
  import opened ColorSchemes

  type SeriesName = string

  datatype SeriesStrategy = ByEntity | ByColumn

  /** The chart manager's options that these getters read. Collaborators that pick
      defaults (`autoDetectYColumnSlugs`, `autoDetectSeriesStrategy`,
      `makeSelectionArray`) appear through their results. */
  datatype Manager = Manager(
    table: Table,
    transformedTable: Option<Table>,
    yColumnSlugsInSelectionOrder: Option<seq<Slug>>,
    autoDetectedYColumnSlugs: seq<Slug>,
    seriesStrategy: SeriesStrategy,
    selectedEntityNames: seq<EntityName>,
    isRelativeMode: bool,
    baseColorScheme: Option<string>,
    invertColorScheme: bool,
    xAxis: Option<AxisConfig>,
    xAxisConfig: AxisConfig,
    yAxis: Option<AxisConfig>,
    yAxisConfig: AxisConfig,
    hideXAxis: bool,
    hideYAxis: bool)

  /** `AbstactStackedChartProps` (bounds are a rendering concern). */
  datatype Props = Props(manager: Manager, disableLinearInterpolation: bool)

  /** `yColumnSlugs`: the slugs in selection order when the manager has them,
      otherwise the auto-detected ones. */
  function YColumnSlugs(m: Manager): (slugs: seq<Slug>)
    ensures m.yColumnSlugsInSelectionOrder.Some? ==> slugs == m.yColumnSlugsInSelectionOrder.value
    ensures m.yColumnSlugsInSelectionOrder.None? ==> slugs == m.autoDetectedYColumnSlugs
  {
    m.yColumnSlugsInSelectionOrder.GetOr(m.autoDetectedYColumnSlugs)
  }

  predicate IsEntitySeries(m: Manager) {
    m.seriesStrategy == ByEntity
  }

  // ------------------------------------------------------------ transformTable

  function Interpolations(slugs: seq<Slug>): seq<TableOp> {
    seq(|slugs|, i requires 0 <= i < |slugs| => InterpolateColumnLinearly(slugs[i]))
  }

  function FirstSlug(slugs: seq<Slug>): Option<Slug> {
    if slugs == [] then None else Some(slugs[0])
  }

  /** The transforms `transformTable` applies, in the order it applies them. */
  function TransformSteps(props: Props): seq<TableOp> {
    var m := props.manager;
    var slugs := YColumnSlugs(m);
    [FilterByEntityNames(m.selectedEntityNames),
     ReplaceNonNumericCellsWithErrorValues(slugs),
     DropRowsWithErrorValuesForAllColumns(slugs)]
    + (if props.disableLinearInterpolation then [] else Interpolations(slugs))
    + [DropRowsWithErrorValuesForAnyColumn(slugs)]
    + (if !m.isRelativeMode then []
       else if IsEntitySeries(m) then [ToPercentageFromEachEntityForEachTime(FirstSlug(slugs))]
       else [ToPercentageFromEachColumnForEachEntityAndTime(slugs)])
  }

  function Transformed(props: Props, table: Table): Table {
    Table(table.source, table.ops + TransformSteps(props))
  }

  /** `transformTable`: reassigns `table` with one derived table per step. */
  method TransformTable(props: Props, table: Table) returns (result: Table)
    ensures result == Transformed(props, table)
  {
    var m := props.manager;
    var slugs := YColumnSlugs(m);
    var t := table.Then(FilterByEntityNames(m.selectedEntityNames));
    t := t.Then(ReplaceNonNumericCellsWithErrorValues(slugs))
          .Then(DropRowsWithErrorValuesForAllColumns(slugs));
    ghost var marked := t;
    if !props.disableLinearInterpolation {
      var i := 0;
      while i < |slugs|
        invariant 0 <= i <= |slugs|
        invariant t == Table(marked.source, marked.ops + Interpolations(slugs[..i]))
      {
        assert Interpolations(slugs[..i + 1]) == Interpolations(slugs[..i]) + [InterpolateColumnLinearly(slugs[i])];
        t := t.Then(InterpolateColumnLinearly(slugs[i]));
        i := i + 1;
      }
      assert slugs[..i] == slugs;
    }
    t := t.Then(DropRowsWithErrorValuesForAnyColumn(slugs));
    if m.isRelativeMode {
      if IsEntitySeries(m) {
        t := t.Then(ToPercentageFromEachEntityForEachTime(FirstSlug(slugs)));
      } else {
        t := t.Then(ToPercentageFromEachColumnForEachEntityAndTime(slugs));
      }
    }
    result := t;
  }

  /** The order of the transform: filter by the selection, mark error cells, drop
      rows invalid in all columns, interpolate each slug in slug order (only when
      interpolation is enabled), drop rows invalid in any column, and, in relative
      mode only, convert to percentages as a last step chosen by the strategy. */
  lemma TransformStepOrder(props: Props)
    ensures var m := props.manager;
      var slugs := YColumnSlugs(m);
      var steps := TransformSteps(props);
      var n := if props.disableLinearInterpolation then 0 else |slugs|;
      && |steps| == 4 + n + (if m.isRelativeMode then 1 else 0)
      && steps[0] == FilterByEntityNames(m.selectedEntityNames)
      && steps[1] == ReplaceNonNumericCellsWithErrorValues(slugs)
      && steps[2] == DropRowsWithErrorValuesForAllColumns(slugs)
      && (forall i :: 0 <= i < n ==> steps[3 + i] == InterpolateColumnLinearly(slugs[i]))
      && steps[3 + n] == DropRowsWithErrorValuesForAnyColumn(slugs)
      && (m.isRelativeMode && IsEntitySeries(m) ==>
            steps[|steps| - 1] == ToPercentageFromEachEntityForEachTime(FirstSlug(slugs)))
      && (m.isRelativeMode && !IsEntitySeries(m) ==>
            steps[|steps| - 1] == ToPercentageFromEachColumnForEachEntityAndTime(slugs))
  {
  }

  /** `manager.transformedTable ?? transformTable(inputTable)`. */
  function TransformedTable(props: Props): (table: Table)
    ensures props.manager.transformedTable.Some? ==> table == props.manager.transformedTable.value
    ensures props.manager.transformedTable.None? ==>
      && table.source == props.manager.table.source
      && table.ops == props.manager.table.ops + TransformSteps(props)
  {
    props.manager.transformedTable.GetOr(Transformed(props, props.manager.table))
  }

  // ------------------------------------------------------------ columns and raw series

  /** `yColumns`: the requested columns in reverse slug order, so that the first
      selected column ends on top of the stack. */
  function YColumns(props: Props, reader: TableReader): (columns: seq<Column>)
    ensures |columns| == |YColumnSlugs(props.manager)|
    ensures var slugs := YColumnSlugs(props.manager);
      forall i :: 0 <= i < |slugs| ==>
        columns[i] == reader.getColumn(TransformedTable(props), slugs[|slugs| - 1 - i])
  {
    Reversed(GetColumns(reader, TransformedTable(props), YColumnSlugs(props.manager)))
  }

  datatype RawSeries = RawSeries(seriesName: SeriesName, isProjection: bool, rows: seq<Row>)

  /** `columnsAsSeries`: one series per column, in column order. */
  function ColumnsAsSeries(columns: seq<Column>): (series: seq<RawSeries>)
    ensures |series| == |columns|
    ensures forall i :: 0 <= i < |columns| ==>
      series[i] == RawSeries(columns[i].displayName, columns[i].isProjection, columns[i].owidRows)
  {
    seq(|columns|, i requires 0 <= i < |columns| =>
      RawSeries(columns[i].displayName, columns[i].isProjection, columns[i].owidRows))
  }

  /** `entitiesAsSeries`: one series per selected entity, reading the first y
      column, in reverse selection order. The getter reads `yColumns[0]` without a
      guard, so with no y columns it throws; that outcome is `None`. */
  function EntitiesAsSeries(columns: seq<Column>, selected: seq<EntityName>): (series: Option<seq<RawSeries>>)
    ensures series.None? <==> columns == []
    ensures series.Some? ==>
      && |series.value| == |selected|
      && forall i :: 0 <= i < |selected| ==>
           var name := selected[|selected| - 1 - i];
           series.value[i] == RawSeries(name, columns[0].isProjection, RowsForEntity(columns[0], name))
  {
    if columns == [] then None
    else
      var first := columns[0];
      Some(Reversed(seq(|selected|, i requires 0 <= i < |selected| =>
        RawSeries(selected[i], first.isProjection, RowsForEntity(first, selected[i])))))
  }

  /** Entity series are the selected names in reverse selection order; each reads
      its rows from the first y column, and an entity with no rows there gets none. */
  lemma EntitySeriesOrder(columns: seq<Column>, selected: seq<EntityName>)
    ensures EntitiesAsSeries(columns, selected).None? <==> columns == []
    ensures columns != [] ==>
      var series := EntitiesAsSeries(columns, selected).value;
      && |series| == |selected|
      && forall i :: 0 <= i < |selected| ==>
           var name := selected[|selected| - 1 - i];
           && series[i].seriesName == name
           && series[i].isProjection == columns[0].isProjection
           && series[i].rows == RowsForEntity(columns[0], name)
           && (name !in columns[0].owidRowsByEntityName ==> series[i].rows == [])
  {
  }

  /** `rawSeries`: by entity one series per selected entity, by column one per
      slug; only an entity chart without slugs throws. */
  function RawSeriesOf(props: Props, reader: TableReader): (raw: Option<seq<RawSeries>>)
    ensures raw.None? <==> IsEntitySeries(props.manager) && YColumnSlugs(props.manager) == []
    ensures raw.Some? ==>
      |raw.value| == (if IsEntitySeries(props.manager) then |props.manager.selectedEntityNames|
                      else |YColumnSlugs(props.manager)|)
  {
    var columns := YColumns(props, reader);
    if IsEntitySeries(props.manager) then EntitiesAsSeries(columns, props.manager.selectedEntityNames)
    else Some(ColumnsAsSeries(columns))
  }

  /** Under the column strategy there is one raw series per slug, in reverse slug
      order: series `i` is the column of slug `n - 1 - i`, by its display name. */
  lemma ColumnSeriesOrder(props: Props, reader: TableReader)
    requires !IsEntitySeries(props.manager)
    ensures RawSeriesOf(props, reader).Some?
    ensures var slugs := YColumnSlugs(props.manager);
      var raw := RawSeriesOf(props, reader).value;
      && |raw| == |slugs|
      && forall i :: 0 <= i < |slugs| ==>
           var column := reader.getColumn(TransformedTable(props), slugs[|slugs| - 1 - i]);
           raw[i] == RawSeries(column.displayName, column.isProjection, column.owidRows)
  {
    var columns := YColumns(props, reader);
    var raw := ColumnsAsSeries(columns);
    assert forall i :: 0 <= i < |columns| ==>
      raw[i] == RawSeries(columns[i].displayName, columns[i].isProjection, columns[i].owidRows);
  }

  /** The raw series exist whenever there is a y-column slug; only an entity chart
      with no slugs at all throws. */
  lemma RawSeriesDefined(props: Props, reader: TableReader)
    ensures RawSeriesOf(props, reader).None? <==>
      IsEntitySeries(props.manager) && YColumnSlugs(props.manager) == []
  {
  }

  /** An entity chart reads every series from `yColumns[0]`, which after the
      reversal is the column of the LAST slug; in relative mode, however, the
      percentage step converts the FIRST slug. The two differ once there are two
      or more slugs. */
  lemma EntitySeriesReadLastSlug(props: Props, reader: TableReader)
    requires IsEntitySeries(props.manager) && YColumnSlugs(props.manager) != []
    ensures var slugs := YColumnSlugs(props.manager);
      var selected := props.manager.selectedEntityNames;
      var column := reader.getColumn(TransformedTable(props), slugs[|slugs| - 1]);
      var raw := RawSeriesOf(props, reader);
      && raw.Some?
      && |raw.value| == |selected|
      && forall i :: 0 <= i < |selected| ==>
           && raw.value[i].isProjection == column.isProjection
           && raw.value[i].rows == RowsForEntity(column, selected[|selected| - 1 - i])
    ensures var steps := TransformSteps(props);
      props.manager.isRelativeMode ==>
        steps[|steps| - 1] == ToPercentageFromEachEntityForEachTime(Some(YColumnSlugs(props.manager)[0]))
  {
    var columns := YColumns(props, reader);
    EntitySeriesOrder(columns, props.manager.selectedEntityNames);
    TransformStepOrder(props);
  }

  // ------------------------------------------------------------ points and series

  datatype StackedPoint = StackedPoint(x: int, y: real, yOffset: real)

  datatype StackedSeries = StackedSeries(
    seriesName: SeriesName,
    isProjection: bool,
    points: seq<StackedPoint>,
    color: Option<Color>)

  function ToPoint(row: Row): StackedPoint {
    StackedPoint(row.time, row.value, 0.0)
  }

  function ToStacked(raw: RawSeries, colorOf: SeriesName -> Option<Color>): StackedSeries {
    StackedSeries(raw.seriesName, raw.isProjection,
      seq(|raw.rows|, j requires 0 <= j < |raw.rows| => ToPoint(raw.rows[j])),
      colorOf(raw.seriesName))
  }

  /** `.filter((series) => series.rows.length)`. */
  function NonEmpty(raw: seq<RawSeries>): (kept: seq<RawSeries>)
    ensures |kept| <= |raw|
  {
    if raw == [] then []
    else NonEmpty(raw[..|raw| - 1]) + (if |raw[|raw| - 1].rows| > 0 then [raw[|raw| - 1]] else [])
  }

  /** The positions of the raw series that have rows, in increasing order. */
  function KeptPositions(raw: seq<RawSeries>): (kept: seq<nat>)
    ensures forall i :: 0 <= i < |kept| ==> kept[i] < |raw|
    ensures forall i, j :: 0 <= i < j < |kept| ==> kept[i] < kept[j]
    ensures forall k :: 0 <= k < |raw| ==> (k in kept <==> |raw[k].rows| > 0)
  {
    if raw == [] then []
    else
      var p := raw[..|raw| - 1];
      assert forall k :: 0 <= k < |p| ==> p[k] == raw[k];
      KeptPositions(p) + (if |raw[|raw| - 1].rows| > 0 then [|raw| - 1] else [])
  }

  /** `unstackedSeries`. `colorOf` is the chart's `getColorForSeries`, which the
      area chart overrides. */
  function UnstackedSeries(raw: seq<RawSeries>, colorOf: SeriesName -> Option<Color>): (series: seq<StackedSeries>)
    ensures |series| <= |raw|
    ensures forall i :: 0 <= i < |series| ==> series[i].points != []
    ensures forall i :: 0 <= i < |series| ==> series[i].color == colorOf(series[i].seriesName)
    ensures forall i, j :: 0 <= i < |series| && 0 <= j < |series[i].points| ==> series[i].points[j].yOffset == 0.0
  {
    NonEmptyKeepsOrder(raw);
    var kept := NonEmpty(raw);
    seq(|kept|, i requires 0 <= i < |kept| => ToStacked(kept[i], colorOf))
  }

  /** The filter keeps exactly the series with rows, each once, in their original
      order: the i-th kept series is the raw series at the i-th kept position. */
  lemma {:induction false} NonEmptyKeepsOrder(raw: seq<RawSeries>)
    ensures |NonEmpty(raw)| == |KeptPositions(raw)|
    ensures forall i :: 0 <= i < |KeptPositions(raw)| ==> NonEmpty(raw)[i] == raw[KeptPositions(raw)[i]]
  {
    if raw != [] {
      var n := |raw|;
      var p := raw[..n - 1];
      NonEmptyKeepsOrder(p);
      var kept, keptP := KeptPositions(raw), KeptPositions(p);
      var ne, neP := NonEmpty(raw), NonEmpty(p);
      forall i | 0 <= i < |kept| ensures ne[i] == raw[kept[i]] {
        if i < |keptP| {
          assert ne[i] == neP[i] && kept[i] == keptP[i];
          assert raw[keptP[i]] == p[keptP[i]];
        }
      }
    }
  }

  /** `unstackedSeries` drops the series without rows, keeps the others in order,
      and turns each row into a point with x = time, y = value and yOffset = 0. */
  lemma UnstackedSeriesSpec(raw: seq<RawSeries>, colorOf: SeriesName -> Option<Color>)
    ensures var series := UnstackedSeries(raw, colorOf);
      var kept := KeptPositions(raw);
      && |series| == |kept|
      && forall i :: 0 <= i < |series| ==>
           var r := raw[kept[i]];
           && series[i].seriesName == r.seriesName
           && series[i].isProjection == r.isProjection
           && series[i].color == colorOf(r.seriesName)
           && |series[i].points| == |r.rows| > 0
           && forall j :: 0 <= j < |r.rows| ==>
                series[i].points[j] == StackedPoint(r.rows[j].time, r.rows[j].value, 0.0)
  {
    NonEmptyKeepsOrder(raw);
  }

  /** `series` is `unstackedSeries`; `None` when computing the raw series throws. */
  function SeriesOf(props: Props, reader: TableReader, colorOf: SeriesName -> Option<Color>): (series: Option<seq<StackedSeries>>)
    ensures series.None? <==> IsEntitySeries(props.manager) && YColumnSlugs(props.manager) == []
    ensures series.Some? ==> forall i :: 0 <= i < |series.value| ==> series.value[i].points != []
    ensures series.Some? ==> forall i :: 0 <= i < |series.value| ==> series.value[i].color == colorOf(series.value[i].seriesName)
  {
    match RawSeriesOf(props, reader)
    case None => None
    case Some(raw) => Some(UnstackedSeries(raw, colorOf))
  }

  /** `allStackedPoints`: every point of every series, series by series. It holds
      every point of every series and nothing else. */
  function AllStackedPoints(series: seq<StackedSeries>): (points: seq<StackedPoint>)
    ensures points == [] <==> forall i :: 0 <= i < |series| ==> series[i].points == []
    ensures forall i, j :: 0 <= i < |series| && 0 <= j < |series[i].points| ==> series[i].points[j] in points
    ensures forall k :: 0 <= k < |points| ==> exists i :: 0 <= i < |series| && points[k] in series[i].points
  {
    var pointLists := seq(|series|, i requires 0 <= i < |series| => series[i].points);
    assert forall i :: 0 <= i < |series| ==> pointLists[i] == series[i].points;
    Flatten(pointLists)
  }

  // ------------------------------------------------------------ failMessage

  const MissingVariable: string := "Missing variable"
  const NoMatchingData: string := "No matching data"
  const NoMatchingPoints: string := "No matching points"

  /** `failMessage`, checked in priority order: no y-column slugs, then no series,
      then no points; the empty message means the chart can be drawn. */
  function FailMessage(props: Props, reader: TableReader, colorOf: SeriesName -> Option<Color>): (message: string)
    ensures YColumnSlugs(props.manager) == [] ==> message == MissingVariable
    ensures YColumnSlugs(props.manager) != [] ==>
      && SeriesOf(props, reader, colorOf).Some?
      && var series := SeriesOf(props, reader, colorOf).value;
         && (series == [] ==> message == NoMatchingData)
         && (series != [] && AllStackedPoints(series) == [] ==> message == NoMatchingPoints)
         && (series != [] && AllStackedPoints(series) != [] ==> message == "")
  {
    if YColumnSlugs(props.manager) == [] then MissingVariable
    else
      var series := SeriesOf(props, reader, colorOf).value;
      if series == [] then NoMatchingData
      else if AllStackedPoints(series) == [] then NoMatchingPoints
      else ""
  }

  /** Because series without rows are dropped first, every remaining series has a
      point: "No matching points" is never reported, and the chart is drawable
      exactly when there is a slug and some raw series has rows. */
  lemma FailMessageOutcomes(props: Props, reader: TableReader, colorOf: SeriesName -> Option<Color>)
    ensures FailMessage(props, reader, colorOf) != NoMatchingPoints
    ensures FailMessage(props, reader, colorOf) == "" <==>
      && YColumnSlugs(props.manager) != []
      && var raw := RawSeriesOf(props, reader).value;
         exists k :: 0 <= k < |raw| && |raw[k].rows| > 0
  {
    if YColumnSlugs(props.manager) != [] {
      var raw := RawSeriesOf(props, reader).value;
      var series := UnstackedSeries(raw, colorOf);
      UnstackedSeriesSpec(raw, colorOf);
      NonEmptyKeepsOrder(raw);
      var kept := KeptPositions(raw);
      if series != [] {
        assert series[0].points != [];
        assert AllStackedPoints(series) != [];
        assert |raw[kept[0]].rows| > 0;
      } else {
        assert kept == [];
      }
    }
  }

  // ------------------------------------------------------------ axes

  /** `horizontalAxisPart`: the domain is the time domain of the y slugs merged
      with the user's bounds; fractional ticks and gridlines are always hidden;
      `hideXAxis` forces the axis hidden. */
  function HorizontalAxisPart(props: Props, reader: TableReader): (axis: Axis)
    ensures axis.hideFractionalTicks && axis.hideGridlines
    ensures props.manager.hideXAxis ==> axis.hideAxis
    ensures var config := props.manager.xAxis.GetOr(props.manager.xAxisConfig);
      && axis.hideAxis == (config.hideAxis || props.manager.hideXAxis)
      && axis.domain == PreservingUserSettings(config,
           reader.timeDomainFor(TransformedTable(props), YColumnSlugs(props.manager)))
  {
    var m := props.manager;
    var config := m.xAxis.GetOr(m.xAxisConfig);
    var dataDomain := reader.timeDomainFor(TransformedTable(props), YColumnSlugs(m));
    Axis(PreservingUserSettings(config, dataDomain), config.hideAxis || m.hideXAxis, true, true)
  }

  /** The vertical axis from the stacked tops `y + yOffset`: `[0, 100]` in
      relative mode whatever the user set; otherwise `[0, max]` (or `[0, 100]` with
      no points) with each bound the user fixed kept. */
  function VerticalAxis(config: AxisConfig, hideYAxis: bool, isRelativeMode: bool, tops: seq<real>): (axis: Axis)
    ensures isRelativeMode ==> axis.domain == Domain(0.0, 100.0)
    ensures !isRelativeMode ==> axis.domain.min == config.min.GetOr(0.0)
    ensures !isRelativeMode && config.max.Some? ==> axis.domain.max == config.max.value
    ensures !isRelativeMode && config.max.None? && tops == [] ==> axis.domain.max == 100.0
    ensures !isRelativeMode && config.max.None? && tops != [] ==>
      axis.domain.max in tops && forall i :: 0 <= i < |tops| ==> tops[i] <= axis.domain.max
    ensures axis.hideAxis == (config.hideAxis || hideYAxis)
  {
    var domain := if isRelativeMode then Domain(0.0, 100.0)
                  else PreservingUserSettings(config, Domain(0.0, MaxOf(tops).GetOr(100.0)));
    Axis(domain, config.hideAxis || hideYAxis, false, false)
  }

  function Tops(points: seq<StackedPoint>): (tops: seq<real>)
    ensures |tops| == |points|
    ensures forall i :: 0 <= i < |points| ==> tops[i] == points[i].y + points[i].yOffset
  {
    seq(|points|, i requires 0 <= i < |points| => points[i].y + points[i].yOffset)
  }

  /** The top of point `j` of series `i`. */
  function PointTop(series: seq<StackedSeries>, i: nat, j: nat): real
    requires i < |series| && j < |series[i].points|
  {
    series[i].points[j].y + series[i].points[j].yOffset
  }

  /** lodash `max` over the tops of all stacked points is the top of some point of
      some series, and no point of any series is above it. */
  lemma {:induction false} MaxTopIsAPointTop(series: seq<StackedSeries>)
    ensures var m := MaxOf(Tops(AllStackedPoints(series)));
      && (m.None? <==> AllStackedPoints(series) == [])
      && (m.Some? ==> forall i, j :: 0 <= i < |series| && 0 <= j < |series[i].points| ==>
            PointTop(series, i, j) <= m.value)
      && (m.Some? ==>
            exists i, j :: 0 <= i < |series| && 0 <= j < |series[i].points| && m.value == PointTop(series, i, j))
  {
    var points := AllStackedPoints(series);
    var tops := Tops(points);
    var m := MaxOf(tops);
    if m.Some? {
      forall i, j | 0 <= i < |series| && 0 <= j < |series[i].points|
        ensures PointTop(series, i, j) <= m.value
      {
        var p := series[i].points[j];
        assert p in points;
        var k :| 0 <= k < |points| && points[k] == p;
        assert tops[k] == PointTop(series, i, j);
      }
      var k :| 0 <= k < |tops| && tops[k] == m.value;
      var i :| 0 <= i < |series| && points[k] in series[i].points;
      var j :| 0 <= j < |series[i].points| && series[i].points[j] == points[k];
      assert m.value == PointTop(series, i, j);
    }
  }

  /** `verticalAxisPart`. It reads `allStackedPoints` before anything else, so it
      throws (`None`) exactly when the raw series do. Outside relative mode the
      lower bound is the user's or 0; the upper bound is the user's, or else the
      highest top of any point of any series, or 100 when there are no points. */
  function VerticalAxisPart(props: Props, reader: TableReader, colorOf: SeriesName -> Option<Color>): (axis: Option<Axis>)
    ensures axis.None? <==> SeriesOf(props, reader, colorOf).None?
    ensures axis.Some? && props.manager.isRelativeMode ==> axis.value.domain == Domain(0.0, 100.0)
    ensures var config := props.manager.yAxis.GetOr(props.manager.yAxisConfig);
      axis.Some? && !props.manager.isRelativeMode ==>
        && axis.value.domain.min == config.min.GetOr(0.0)
        && (config.max.Some? ==> axis.value.domain.max == config.max.value)
    ensures var config := props.manager.yAxis.GetOr(props.manager.yAxisConfig);
      var series := SeriesOf(props, reader, colorOf);
      axis.Some? && !props.manager.isRelativeMode && config.max.None? ==>
        && (AllStackedPoints(series.value) == [] ==> axis.value.domain.max == 100.0)
        && (forall i, j :: 0 <= i < |series.value| && 0 <= j < |series.value[i].points| ==>
              PointTop(series.value, i, j) <= axis.value.domain.max)
        && (AllStackedPoints(series.value) != [] ==>
              exists i, j :: 0 <= i < |series.value| && 0 <= j < |series.value[i].points| &&
                axis.value.domain.max == PointTop(series.value, i, j))
  {
    var m := props.manager;
    match SeriesOf(props, reader, colorOf)
    case None => None
    case Some(series) =>
      MaxTopIsAPointTop(series);
      Some(VerticalAxis(m.yAxis.GetOr(m.yAxisConfig), m.hideYAxis, m.isRelativeMode,
                        Tops(AllStackedPoints(series))))
  }

  /** Relative mode forces `[0, 100]` over any user bounds. */
  lemma RelativeModeForcesDomain(props: Props, reader: TableReader, colorOf: SeriesName -> Option<Color>)
    requires props.manager.isRelativeMode
    requires !(IsEntitySeries(props.manager) && YColumnSlugs(props.manager) == [])
    ensures VerticalAxisPart(props, reader, colorOf).Some?
    ensures VerticalAxisPart(props, reader, colorOf).value.domain == Domain(0.0, 100.0)
  {
  }

  /** With a user maximum of 200 and relative mode off the upper bound is above
      100, and switching relative mode on gives exactly `[0, 100]`. */
  lemma UserMaximumThenRelativeMode(props: Props, reader: TableReader, colorOf: SeriesName -> Option<Color>)
    requires YColumnSlugs(props.manager) != []
    requires props.manager.yAxis == Some(AxisConfig(Some(0.0), Some(200.0), false))
    ensures var off := props.(manager := props.manager.(isRelativeMode := false));
      VerticalAxisPart(off, reader, colorOf).Some? &&
      VerticalAxisPart(off, reader, colorOf).value.domain.max > 100.0
    ensures var on := props.(manager := props.manager.(isRelativeMode := true));
      VerticalAxisPart(on, reader, colorOf) == Some(Axis(Domain(0.0, 100.0), props.manager.hideYAxis, false, false))
  {
  }

  // ------------------------------------------------------------ colours

  /** `colorScheme`: the named scheme when a non-empty name is set and known,
      otherwise `stackedAreaDefault`. */
  function BaseColorScheme(registry: Registry, baseColorScheme: Option<string>): (scheme: ColorScheme)
    requires StackedAreaDefault in registry
    ensures baseColorScheme.Some? && baseColorScheme.value != "" && baseColorScheme.value in registry ==>
      scheme == registry[baseColorScheme.value]
    ensures baseColorScheme.Some? && baseColorScheme.value !in registry ==> scheme == registry[StackedAreaDefault]
    ensures baseColorScheme.None? || baseColorScheme == Some("") ==> scheme == registry[StackedAreaDefault]
  {
    if baseColorScheme.Some? && baseColorScheme.value != "" && baseColorScheme.value in registry
    then registry[baseColorScheme.value]
    else registry[StackedAreaDefault]
  }

  /** One colour per selected entity under the entity strategy, else per y column. */
  function SeriesCount(props: Props, reader: TableReader): nat {
    if IsEntitySeries(props.manager) then |props.manager.selectedEntityNames|
    else |YColumns(props, reader)|
  }

  function BasePalette(props: Props, reader: TableReader, registry: Registry): seq<Color>
    requires StackedAreaDefault in registry
  {
    Palette(BaseColorScheme(registry, props.manager.baseColorScheme),
            SeriesCount(props, reader), props.manager.invertColorScheme)
  }

  /** `colorScheme`'s palette, built in place as the getter does. */
  method BuildBasePalette(props: Props, reader: TableReader, registry: Registry) returns (colors: seq<Color>)
    requires StackedAreaDefault in registry
    ensures colors == BasePalette(props, reader, registry)
    ensures props.manager.invertColorScheme ==>
      colors == Reversed(Palette(BaseColorScheme(registry, props.manager.baseColorScheme), SeriesCount(props, reader), false))
  {
    var scheme := BaseColorScheme(registry, props.manager.baseColorScheme);
    colors := BuildPalette(scheme, SeriesCount(props, reader), props.manager.invertColorScheme);
    InvertedPaletteMirrors(scheme, SeriesCount(props, reader));
  }

  /** The table's own colour for a series: by entity name or by column display name. */
  function TableColor(props: Props, reader: TableReader, name: SeriesName): Option<Color> {
    if IsEntitySeries(props.manager) then reader.colorForEntityName(TransformedTable(props), name)
    else reader.colorForColumnByDisplayName(TransformedTable(props), name)
  }

  /** `getColorForSeries`: the table's colour, else the ordinal scheme colour,
      else "#ddd". */
  function ColorForSeries(props: Props, reader: TableReader, registry: Registry, slot: string -> nat, name: SeriesName): (color: Color)
    requires StackedAreaDefault in registry
    ensures TableColor(props, reader, name).Some? ==> color == TableColor(props, reader, name).value
    ensures TableColor(props, reader, name).None? && BasePalette(props, reader, registry) != [] ==>
      color in BasePalette(props, reader, registry)
    ensures TableColor(props, reader, name).None? && BasePalette(props, reader, registry) == [] ==>
      color == "#ddd"
  {
    match TableColor(props, reader, name)
    case Some(c) => c
    case None => OrdinalColor(BasePalette(props, reader, registry), slot, name).GetOr("#ddd")
  }
}
