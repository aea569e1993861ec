/** The parts of the grapher's axis objects that the stacked charts read or set:
    the user's axis configuration, the resolved domain with its rendering hints,
    and the pixel mapping of the two axes. The scale arithmetic behind `place`
    and the axis class's own defaults are not part of this model. */
module Axes {
  import opened Util

  /** A value domain `[min, max]`. */
  datatype Domain = Domain(min: real, max: real)

  /** What the user may fix on an axis: either bound, and whether it is hidden. */
  datatype AxisConfig = AxisConfig(min: Option<real>, max: Option<real>, hideAxis: bool)

  /** A resolved axis. Flags this chart does not set are taken to be off. */
  datatype Axis = Axis(
    domain: Domain,
    hideAxis: bool,
    hideFractionalTicks: bool,
    hideGridlines: bool)

  /** `updateDomainPreservingUserSettings`: each bound the user fixed is kept, each
      other bound is replaced by the data-derived one, independently per bound. */
  function PreservingUserSettings(config: AxisConfig, data: Domain): (d: Domain)
    ensures config.min.Some? ==> d.min == config.min.value
    ensures config.min.None? ==> d.min == data.min
    ensures config.max.Some? ==> d.max == config.max.value
    ensures config.max.None? ==> d.max == data.max
  {
    Domain(config.min.GetOr(data.min), config.max.GetOr(data.max))
  }

  /** A pointer position relative to the chart. */
  datatype Point = Point(x: real, y: real)

  /** The two axes as the renderer sees them: where a time or a value lands in
      pixels, the pixel ranges (`range[0]`, `range[1]`), and whether a point lies
      inside the plotting area (`innerBounds.contains`). */
  datatype DualAxis = DualAxis(
    placeX: int -> real,
    placeY: real -> real,
    horizontalRange: (real, real),
    verticalRange: (real, real),
    innerBoundsContains: Point -> bool)
}
