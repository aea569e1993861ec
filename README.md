# Stacked area chart and prominent link — a Dafny model

This project models how the grapher prepares and draws a stacked area chart, and how a site
"prominent link" block rewrites a chart URL:

- **`AbstractStackedChart`** (`abstract_stacked_chart.dfy`) covers the stacked-chart base class:
  - the table transform (`transformTable`), as a method that reassigns its table step by step;
  - the y columns in reverse slug order;
  - raw series by entity or by column;
  - the points of each series;
  - the failure-message priority;
  - the horizontal and vertical axis domains;
  - the colour fallback chain.
- **`StackedArea`** (`stacked_area_chart.dfy`) covers the area chart and its `Areas` layer:
  - the two are classes whose `hoverIndex` and `hoverKey` fields their methods update;
  - nearest-point hover indexing;
  - the area outlines, built by a loop that carries the previous top edge;
  - the legend midpoints, built by a loop that carries `prevY`;
  - label marks, focus and blur, and the tooltip total;
  - the available times and the chart's own colour scale.
- **`ProminentLink`** (`prominent_link.dfy`) covers the URL rewrite. The link's `country` entities
  are merged with the page's global selection, and every other query parameter is kept.

Supporting modules:

- **`OwidTable`**:
  - A table is represented by the table it came from plus the ordered list of transforms applied
    to it.
  - Everything read out of a table comes from a `TableReader` of uninterpreted functions.
- **`Axes`**: axis configuration and the per-bound "preserving user settings" merge.
- **`ColorSchemes`**: schemes, palettes built in place, and d3's ordinal scale.
- **`Util`**: the lodash helpers the code calls (`reverse`, `union`, `max`, `minBy`, `flatten`).

Getters that can throw are modelled with `Option`, and `None` stands for the throw. The tooltip
getter has its own outcome type, `TooltipOutcome`, whose `Thrown` case is the throw.
`entitiesAsSeries` reads `yColumns[0]` without a guard, so with no y columns it throws.

Where the code's own names and comments promise more than it does, the model follows the code:

- **No stacking.** The types and getters are named for stacking (`StackedSeries`, `yOffset`,
  `allStackedPoints`), and the comment at grapher/areaCharts/StackedAreaChart.tsx:92 says each
  series is stacked upon the previous one. Yet `series` is `unstackedSeries`
  (grapher/stackedCharts/AbstractStackedChart.tsx:287-289), and every point gets `yOffset` 0
  (line 279). No stacker is modelled.
- **Tooltip total.** The total row shows the last series' own `y` at the hover index, not a sum
  over the series. `TooltipTotal` states exactly that.
- **Tooltip on a missing point.** The tooltip reads the `y` of every series' point at the hover
  index before its `someMissing` guard, so a missing point throws (see "## Findings").
- **Entity series and relative mode.** An entity chart reads its series from `yColumns[0]`, the
  column of the last slug, while relative mode converts the first slug to percentages
  (`EntitySeriesReadLastSlug`). With a single slug the two are the same column.
- **Unreachable message.** Series without rows are filtered out before the point check, so
  "No matching points" can never be reported (`FailMessageOutcomes`).

## Model

| member | source | states |
|---|---|---|
| Util.Reversed | grapher/stackedCharts/AbstractStackedChart.tsx:103-106 | the result has the same length and element `i` is element `n-1-i` of the input |
| Util.ReversedTwice | grapher/stackedCharts/AbstractStackedChart.tsx:243 | reversing twice gives back the original list |
| Util.ReverseInPlace | grapher/stackedCharts/AbstractStackedChart.tsx:243 | `Array.prototype.reverse` leaves the array holding the reverse of its old contents |
| Util.Flatten | grapher/stackedCharts/AbstractStackedChart.tsx:222-224 | every element of every inner list is in the result and every element of the result comes from some inner list; the result is empty iff every inner list is |
| Util.MaxOf | grapher/stackedCharts/AbstractStackedChart.tsx:188 | lodash `max` is undefined iff the list is empty, and otherwise is an element no smaller than any other |
| Util.MinByIndex | grapher/areaCharts/StackedAreaChart.tsx:58-64 | `minBy` then `indexOf` gives an in-range index with a minimal key, strictly smaller than every earlier key (first minimum wins) |
| Util.Dedup | site/blocks/ProminentLink.tsx:67-70 | the result has no duplicates and holds exactly the elements of the input |
| Util.DedupFirstOccurrenceOrder | site/blocks/ProminentLink.tsx:67-70 | the distinct elements are listed in the order of their first occurrences in the input |
| Util.DedupAppend | site/blocks/ProminentLink.tsx:67-70 | deduplicating `a + b` gives the distinct elements of `a`, then the distinct elements of `b` not in `a`, each in first-occurrence order |
| Util.DedupPrefix | site/blocks/ProminentLink.tsx:67-70 | deduplicating `a + b` extends the deduplicated `a` |
| Util.UnionProperties | site/blocks/ProminentLink.tsx:67-70 | lodash `union` has no duplicates, contains every element of both lists and only those, and equals the distinct elements of the first list followed by those of the second list that the first lacks, each in order |
| Util.DedupOfDistinct | site/blocks/ProminentLink.tsx:67-70 | deduplicating a list that has no duplicates leaves it unchanged |
| Axes.PreservingUserSettings | grapher/stackedCharts/AbstractStackedChart.tsx:167-169 | each bound the user fixed is kept, and each other bound comes from the data domain |
| OwidTable.RowsForEntity | grapher/stackedCharts/AbstractStackedChart.tsx:210 | an entity present in the column reads its own rows, and an absent one reads as an empty row list |
| OwidTable.GetColumns | grapher/stackedCharts/AbstractStackedChart.tsx:105 | one column per slug, in slug order |
| ColorSchemes.BuildPalette | grapher/stackedCharts/AbstractStackedChart.tsx:242-243 | the palette built in an array and reversed in place when inverted equals the scheme's colours, reversed iff inverted, with their count |
| ColorSchemes.InvertedPaletteMirrors | grapher/stackedCharts/AbstractStackedChart.tsx:243 | the inverted palette is the mirror image of the plain one, and the plain one of the inverted one |
| ColorSchemes.OrdinalColor | grapher/stackedCharts/AbstractStackedChart.tsx:244 | the ordinal scale is undefined iff its palette is empty, and otherwise yields a palette colour |
| AbstractStackedChart.TransformTable | grapher/stackedCharts/AbstractStackedChart.tsx:40-71 | the loop-built table is the input table with exactly the transform steps of `TransformSteps` appended |
| AbstractStackedChart.TransformStepOrder | grapher/stackedCharts/AbstractStackedChart.tsx:40-71 | the steps are filter, mark errors, drop rows bad in all columns, one interpolation per slug in order (only if enabled), drop rows bad in any column, then in relative mode only the percentage step chosen by the strategy |
| AbstractStackedChart.TransformedTable | grapher/stackedCharts/AbstractStackedChart.tsx:77-82 | the manager's transformed table when it supplies one, otherwise the input table with the transform steps appended |
| AbstractStackedChart.YColumnSlugs | grapher/stackedCharts/AbstractStackedChart.tsx:108-113 | the manager's slugs in selection order when it has them, otherwise the auto-detected slugs |
| AbstractStackedChart.YColumns | grapher/stackedCharts/AbstractStackedChart.tsx:103-106 | one column per y slug, in reverse slug order, read from the transformed table |
| AbstractStackedChart.ColumnsAsSeries | grapher/stackedCharts/AbstractStackedChart.tsx:193-201 | one series per column, in column order, named by display name and carrying the column's rows |
| AbstractStackedChart.EntitiesAsSeries | grapher/stackedCharts/AbstractStackedChart.tsx:203-214 | throws iff there are no y columns; otherwise one series per selected entity in reverse selection order, each with the first column's projection flag and that column's rows for the entity |
| AbstractStackedChart.EntitySeriesOrder | grapher/stackedCharts/AbstractStackedChart.tsx:203-214 | entity series throw iff there are no y columns; otherwise they are the selected names in reverse order, each reading the rows of `yColumns[0]` or none |
| AbstractStackedChart.ColumnSeriesOrder | grapher/stackedCharts/AbstractStackedChart.tsx:193-220 | under the column strategy raw series `i` is the column of slug `n-1-i` |
| AbstractStackedChart.RawSeriesOf | grapher/stackedCharts/AbstractStackedChart.tsx:216-220 | throws iff the chart is by entity with no y slugs; otherwise one series per selected entity (by entity) or per y slug (by column) |
| AbstractStackedChart.RawSeriesDefined | grapher/stackedCharts/AbstractStackedChart.tsx:203-220 | the raw series throw iff the strategy is by entity and there are no y slugs |
| AbstractStackedChart.EntitySeriesReadLastSlug | grapher/stackedCharts/AbstractStackedChart.tsx:203-214 | every entity series reads the column of the last y slug, while in relative mode the percentage step names the first y slug |
| AbstractStackedChart.KeptPositions | grapher/stackedCharts/AbstractStackedChart.tsx:269 | the kept positions are in range, strictly increasing, and include a position iff its series has rows |
| AbstractStackedChart.NonEmptyKeepsOrder | grapher/stackedCharts/AbstractStackedChart.tsx:268-269 | the filter keeps exactly the series with rows, in their original order |
| AbstractStackedChart.UnstackedSeries | grapher/stackedCharts/AbstractStackedChart.tsx:267-285 | no more series than raw series, none without points, each coloured by `getColorForSeries` of its name, and every point with `yOffset` 0 |
| AbstractStackedChart.UnstackedSeriesSpec | grapher/stackedCharts/AbstractStackedChart.tsx:267-285 | one series per raw series with rows, in order, with the same name, projection flag and colour, and points `(time, value, 0)` row by row |
| AbstractStackedChart.SeriesOf | grapher/stackedCharts/AbstractStackedChart.tsx:287-289 | `series` throws iff the raw series do; otherwise no series is without points and each is coloured by `getColorForSeries` of its name |
| AbstractStackedChart.AllStackedPoints | grapher/stackedCharts/AbstractStackedChart.tsx:222-224 | the list holds every point of every series and nothing else, and is empty iff every series has no points |
| AbstractStackedChart.FailMessage | grapher/stackedCharts/AbstractStackedChart.tsx:226-232 | "Missing variable" without slugs, else "No matching data" without series, else "No matching points" without points, else "" |
| AbstractStackedChart.FailMessageOutcomes | grapher/stackedCharts/AbstractStackedChart.tsx:226-232 | "No matching points" never occurs, and the message is empty iff there is a slug and some raw series has rows |
| AbstractStackedChart.HorizontalAxisPart | grapher/stackedCharts/AbstractStackedChart.tsx:161-174 | fractional ticks and gridlines are hidden, `hideXAxis` hides the axis, and the domain is the time domain of the y slugs under the user's bounds |
| AbstractStackedChart.VerticalAxis | grapher/stackedCharts/AbstractStackedChart.tsx:182-191 | relative mode gives `[0, 100]`; otherwise the minimum is the user's or 0 and the maximum is the user's, else the largest top, else 100 with no points |
| AbstractStackedChart.Tops | grapher/stackedCharts/AbstractStackedChart.tsx:179-181 | one value `y + yOffset` per point |
| AbstractStackedChart.MaxTopIsAPointTop | grapher/stackedCharts/AbstractStackedChart.tsx:179-188 | the maximum of the stacked tops is undefined iff there are no points, and otherwise is the top of some point of some series with no point above it |
| AbstractStackedChart.VerticalAxisPart | grapher/stackedCharts/AbstractStackedChart.tsx:176-191 | throws iff the series do; `[0, 100]` in relative mode; otherwise the user's minimum or 0, and the user's maximum, else the highest top of any point of any series, else 100 with no points |
| AbstractStackedChart.RelativeModeForcesDomain | grapher/stackedCharts/AbstractStackedChart.tsx:186-188 | in relative mode, whenever the series are defined, the vertical domain is `[0, 100]` whatever the user set |
| AbstractStackedChart.UserMaximumThenRelativeMode | grapher/areaCharts/StackedAreaChart.test.ts:30-38 | with a user maximum of 200 the upper bound exceeds 100, and switching relative mode on gives exactly `[0, 100]` |
| AbstractStackedChart.BaseColorScheme | grapher/stackedCharts/AbstractStackedChart.tsx:235-238 | a set, non-empty, known scheme name selects that scheme; an unknown, empty or unset name falls back to `stackedAreaDefault` |
| AbstractStackedChart.BuildBasePalette | grapher/stackedCharts/AbstractStackedChart.tsx:234-245 | the base scheme's colours for the series count, reversed when inverted |
| AbstractStackedChart.ColorForSeries | grapher/stackedCharts/AbstractStackedChart.tsx:247-253 | the table's colour by entity or display name if any, else a colour of the scheme palette, else "#ddd" when the palette is empty |
| StackedArea.HoverIndexAt | grapher/areaCharts/StackedAreaChart.tsx:50-72 | no index iff the pointer is outside the plot or there are no points; otherwise an in-range index whose point is nearest the pointer horizontally, the first on ties |
| StackedArea.FocusedSeriesNames | grapher/areaCharts/StackedAreaChart.tsx:287-289 | at most one name; a name iff a non-empty legend key is hovered, and then that key |
| StackedArea.BlurredIffOtherKeyHovered | grapher/areaCharts/StackedAreaChart.tsx:287-300 | a series is blurred iff a non-empty legend key is hovered and the series has another name |
| StackedArea.StackedAreaChart.OnHover | grapher/areaCharts/StackedAreaChart.tsx:263-266 | the chart's hover index becomes the reported one |
| StackedArea.StackedAreaChart.OnLegendMouseOver | grapher/areaCharts/StackedAreaChart.tsx:279-281 | the hovered key becomes the legend entry |
| StackedArea.StackedAreaChart.OnLegendMouseLeave | grapher/areaCharts/StackedAreaChart.tsx:283-285 | the hovered key is cleared |
| StackedArea.StackedAreaChart.IsFocusMode | grapher/areaCharts/StackedAreaChart.tsx:287-293 | focus mode holds iff a non-empty legend key is hovered |
| StackedArea.StackedAreaChart.Tooltip | grapher/areaCharts/StackedAreaChart.tsx:302-405 | at the chart's hover index, the corrected tooltip: none without a hover index, a throw iff there are no series or the first has no point there, and otherwise the total row is `TooltipTotal`, omitted iff some series lacks the point |
| StackedArea.PlacedTop | grapher/areaCharts/StackedAreaChart.tsx:94-100 | pixel `j` of the edge is `(placeX(x), placeY(y + yOffset))` of point `j`, one per point |
| StackedArea.AreaClosesBelow | grapher/areaCharts/StackedAreaChart.tsx:86-103 | area `k` is its own top edge, then the previous series' top edge reversed, or the bottom-right then bottom-left corner for the first area |
| StackedArea.Areas.OnCursorMove | grapher/areaCharts/StackedAreaChart.tsx:50-72 | the layer's hover index becomes the nearest-point index over the first series and is reported to the chart |
| StackedArea.Areas.OnCursorLeave | grapher/areaCharts/StackedAreaChart.tsx:74-77 | the hover index is cleared in the layer and in the chart |
| StackedArea.Areas.Outlines | grapher/areaCharts/StackedAreaChart.tsx:86-117 | the loop over the series yields one area per series, area `k` being the one `AreaAt` describes |
| StackedArea.Midpoints | grapher/areaCharts/StackedAreaChart.tsx:227-238 | one midpoint per series, each halfway between the previous non-empty series' top and its own last top, or 0 for a series without points |
| StackedArea.EmptySeriesKeepsPrevTop | grapher/areaCharts/StackedAreaChart.tsx:230-231 | a series without points has midpoint 0 and leaves `prevY` unchanged |
| StackedArea.LabelMarks | grapher/areaCharts/StackedAreaChart.tsx:240-252 | one mark per series in reverse series order, each with its series' colour, name, label and midpoint |
| StackedArea.TooltipTotal | grapher/areaCharts/StackedAreaChart.tsx:310-399 | the total row as its guard intends: it exists iff every series has a point at the index, and then it is the last series' `y` there |
| StackedArea.TooltipAsWritten | grapher/areaCharts/StackedAreaChart.tsx:302-405 | the getter as written: none without a hover index; a throw iff there are no series or some series lacks a point at the index; otherwise the total is always shown and equals `TooltipTotal` |
| StackedArea.TooltipIntended | grapher/areaCharts/StackedAreaChart.tsx:302-405 | the getter with a missing point read as "No data": a throw iff there are no series or the first lacks the point, and otherwise the total row is `TooltipTotal`, omitted iff some series lacks the point |
| StackedArea.TooltipAsWrittenVersusIntended | grapher/areaCharts/StackedAreaChart.tsx:346-382 | wherever the getter as written renders, it renders the intended tooltip; where only a later series lacks the point, it throws while the intended tooltip omits the total |
| StackedArea.ShorterSeriesTooltip | grapher/areaCharts/StackedAreaChart.tsx:346-382 | with series of 3 and 2 points at hover index 2, the getter as written throws and the intended tooltip omits the total |
| StackedArea.AvailableTimes | grapher/areaCharts/StackedAreaChart.tsx:488-491 | no times without series, otherwise the x values of the first series in order |
| StackedArea.AvailableTimesOfFirstKept | grapher/areaCharts/StackedAreaChart.tsx:488-491 | the available times are the times of the first raw series that has rows |
| StackedArea.AreaColorScheme | grapher/areaCharts/StackedAreaChart.tsx:493-499 | a known scheme name selects that scheme, an unknown one falls back to `stackedAreaDefault`, and an unset name does too unless "undefined" is a key |
| StackedArea.SchemeLookupsCompared | grapher/areaCharts/StackedAreaChart.tsx:493-499 | for a set, non-empty name the area chart's scheme is the base class's; an unset name is looked up under "undefined" |
| StackedArea.BuildColorScale | grapher/areaCharts/StackedAreaChart.tsx:501-509 | the scale's palette is the scheme's colours for the series count, reversed when inverted |
| StackedArea.AreaColorForSeries | grapher/areaCharts/StackedAreaChart.tsx:511-516 | a non-empty entity colour wins, else the ordinal scale colour; there is no colour iff there is no entity colour and the palette is empty |
| StackedArea.AreaSeries | grapher/areaCharts/StackedAreaChart.tsx:511-516 | the drawn series throw iff the raw series do, and each carries the colour the area chart's override gives its name |
| ProminentLink.OriginalURLQueryParams | site/blocks/ProminentLink.tsx:41-47 | parameters exist iff the query string is present and non-empty, and then they are the parse of that query string |
| ProminentLink.OriginalURLSelectedEntities | site/blocks/ProminentLink.tsx:49-60 | no entities when `country` is absent or empty, otherwise its decoded entity names |
| ProminentLink.EntitiesInGlobalEntitySelection | site/blocks/ProminentLink.tsx:62-64 | a missing global selection reads as no entities |
| ProminentLink.NewEntityListProperties | site/blocks/ProminentLink.tsx:66-73 | the new list has no duplicates, holds every entity of either list and nothing else, and is the link's own entities in first-occurrence order followed by the global entities the link lacks, in their order |
| ProminentLink.NewEntityListEmpty | site/blocks/ProminentLink.tsx:62-73 | with no `country` entities and no global selection the new list is empty |
| ProminentLink.UpdatedURLParams | site/blocks/ProminentLink.tsx:75-84 | every original parameter is kept with its decoded value, and `country` is set to the new list iff its encoding is non-empty |
| ProminentLink.UpdatedURL | site/blocks/ProminentLink.tsx:86-88 | the URL is the original path followed by the serialised updated parameters |

Getters whose model is a one-line definition carry no contract of their own. Each is listed
here with the rows of the table above that state its properties:

- `isEntitySeries` (grapher/stackedCharts/AbstractStackedChart.tsx:259-261) is
  `AbstractStackedChart.IsEntitySeries`, used by `RawSeriesOf` and `RawSeriesDefined`.
- `seriesIsBlur`, in the area layer (grapher/areaCharts/StackedAreaChart.tsx:79-84) and in the
  chart (lines 295-300), is `StackedArea.SeriesIsBlur`; see `BlurredIffOtherKeyHovered`.
- `someMissing` (grapher/areaCharts/StackedAreaChart.tsx:311-313) is `StackedArea.SomeMissing`;
  see `TooltipTotal`, `TooltipAsWritten` and `TooltipIntended`.
- `originalURLPath` (site/blocks/ProminentLink.tsx:29-33) is `ProminentLink.OriginalURLPath`;
  see `UpdatedURL`.
- The `country` test in `originalURLSelectedEntities` (site/blocks/ProminentLink.tsx:52-55) is
  `ProminentLink.HasCountry`; see `OriginalURLSelectedEntities`.
- The `union` in `updatedEntityQueryParam` (site/blocks/ProminentLink.tsx:66-70) is
  `ProminentLink.NewEntityList`; see `NewEntityListProperties` and `NewEntityListEmpty`.
- `updatedEntityQueryParam` (site/blocks/ProminentLink.tsx:66-73) is
  `ProminentLink.UpdatedEntityQueryParam`; see `UpdatedURLParams`.

## Left out

- React rendering is not modelled, nor the `Tooltip`, `NoDataModal` and `LineLegend` components, the area
  borders, the tooltip rows and the number formatting (`formatYTick`, `formatColumn`). These are UI.
- The intro animations (`componentDidMount` and `componentWillUnmount`), `guid()` and
  `exposeInstanceOnWindow` are not modelled. They are animation, randomness and global side effects.
- `onLegendClick`, `maxLegendWidth`, `legendDimensions` and `paddingForLegend` are not modelled.
  They depend on the manager's UI state and on text measurement.
- MobX reactivity is not modelled. Getters are functions and observables are plain fields.
- OwidTable's internals are not modelled: interpolation, percentages, error marking, time domains,
  colour and label lookups. Only the order and arguments of the calls are modelled.
- The scale arithmetic of `Axis.place` and the axis classes' own defaults are left out. Flags the
  chart does not set are taken as off.
- d3 `scaleOrdinal` assigns slots in the order names are first requested. Its slot choice is a
  parameter `slot`.
- `autoDetectYColumnSlugs`, `autoDetectSeriesStrategy` and `makeSelectionArray` appear only through
  their results, as fields of `Manager`.
- The area chart's `this.table` is taken to be the transformed table, and its selection is the
  manager's selected entities.
- `HorizontalAxisPart` and `VerticalAxis` do not model that setting `hideAxis` mutates a shared
  manager-supplied `AxisConfig` object. Only the resulting axis is modelled.
- The commented-out gap-filling code in the area chart is not modelled because it is inactive.
- URL splitting, parsing and serialising, lodash `isEmpty` on a parsed parameter, and
  `EntityUrlBuilder` are uninterpreted functions in `UrlCodec`.
- `renderProminentLink`'s walk over the DOM is not modelled. It is DOM glue.
- The anchor's other attributes and `innerHTML` are passed through untouched and are not modelled.
- BuildPalette, BuildBasePalette and BuildColorScale assume that `getColors` returns a fresh array.
  The source reverses that array in place, so if a scheme returned its stored palette, inverting
  would also change the scheme. That aliasing is not modelled.
- UpdatedURLParams returns a map, so it does not keep the key order of the query-parameter object
  that `queryParamsToStr` serialises. In the source, the original keys keep their order, and
  `country` stays in place or comes last.
- JavaScript numbers are modelled as unbounded `int` and exact `real`. Rounding is not modelled,
  and neither is NaN, which lodash `max` and `minBy` skip and which a percentage over a zero sum
  would produce.

## Findings

| source | as written | input that shows it | evidently intended | confidence | as-written member | corrected member |
|---|---|---|---|---|---|---|
| grapher/areaCharts/StackedAreaChart.tsx:346-382 | each series' row reads `value.y` of `series.points[hoverIndex]` before the `someMissing` guard of the total row, so a series without a point at the hover index makes the tooltip throw and the guard never omits the total | two series, the first with 3 points and the second with 2, at hover index 2 (the hover index comes from the first series alone, lines 58-62) | a missing point reads as "No data" (`value?.y`), and the total row is omitted | not executed; medium | StackedArea.TooltipAsWritten, StackedArea.ShorterSeriesTooltip | StackedArea.TooltipIntended, StackedArea.TooltipTotal |
