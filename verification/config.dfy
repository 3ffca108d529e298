/** Configuration of one canvas animation, and the units the model counts in.

    Time is counted in TICKS of one third of a millisecond, so that the
    default frame interval of 1000/30 ms is exactly 100 ticks. A clock
    reading (`Date.now()`) of m milliseconds is the tick count 3 * m.
    Lengths (widths, heights, offsets, breakpoints) are in CSS pixels. */
module Config {

  /** The conventional optional value. */
  datatype Option<T> = None | Some(value: T)

  /** A width-to-height ratio num/den, kept exact. */
  datatype Ratio = Ratio(num: int, den: int)

  predicate ValidRatio(r: Ratio) {
    r.num > 0 && r.den > 0
  }

  const TicksPerMs: int := 3

  /** Default `imageRatio`: 1050 / 263. */
  const DefaultImageRatio: Ratio := Ratio(1050, 263)

  /** Default `frameInterval`: 1000 / 30 ms, that is 100 ticks. */
  const DefaultFrameInterval: int := 100

  const DefaultMobileBreakpoint: int := 768
  const DefaultTabletBreakpoint: int := 1024

  /** Delay before playback starts on viewports at least as wide as the mobile breakpoint: 500 ms. */
  const StartDelay: int := 500 * TicksPerMs

  /** Delay of the initial sizing timer set up by `init`: 1000 ms. */
  const InitDelay: int := 1000 * TicksPerMs

  /** The options of the plugin after merging with the defaults.
      `images` holds the URLs of the frames, in playback order. */
  datatype Options = Options(
    imageRatio: Ratio,
    frameInterval: int,
    images: seq<string>,
    mobileBreakpoint: int,
    tabletBreakpoint: int)

  const Defaults: Options :=
    Options(DefaultImageRatio, DefaultFrameInterval, [], DefaultMobileBreakpoint, DefaultTabletBreakpoint)

  /** Options the arithmetic of the plugin is meaningful for: a positive
      ratio and a positive frame interval. Otherwise the source divides or
      takes a remainder by zero, computes infinite or negative heights, or
      has an interval that never holds a frame back. */
  predicate ValidOptions(o: Options) {
    ValidRatio(o.imageRatio) && o.frameInterval > 0
  }
}
