/** The trigger point: the scroll offset past which playback may start
    (`getAnimationTriggerPoint`). */
module Trigger {

  /** The three responsive regimes, chosen by the viewport width. */
  datatype Regime = Mobile | Tablet | Desktop

  /** The branch `getAnimationTriggerPoint` takes: each regime is selected
      by exactly its range of widths, so exactly one branch applies. */
  function RegimeOf(windowWidth: int, mobileBreakpoint: int, tabletBreakpoint: int): (r: Regime)
    ensures r == Mobile <==> windowWidth < mobileBreakpoint
    ensures r == Tablet <==> mobileBreakpoint <= windowWidth <= tabletBreakpoint
    ensures r == Desktop <==> mobileBreakpoint <= windowWidth && tabletBreakpoint < windowWidth
  {
    if windowWidth < mobileBreakpoint then Mobile
    else if windowWidth <= tabletBreakpoint then Tablet
    else Desktop
  }

  /** The share k of the viewport height subtracted in each regime. */
  function Share(r: Regime): (k: real)
    ensures 0.5 <= k <= 1.0
    // only the desktop regime waits for the whole viewport height
    ensures k == 1.0 <==> r == Desktop
  {
    match r
    case Mobile => 0.5
    case Tablet => 0.75
    case Desktop => 1.0
  }

  /** The trigger point, from the canvas's top offset on the page, its
      displayed height and the viewport's width and height. */
  function TriggerPoint(top: int, height: int, windowWidth: int, windowHeight: int,
                        mobileBreakpoint: int, tabletBreakpoint: int): (p: real)
    ensures p == (top + height) as real
                 - Share(RegimeOf(windowWidth, mobileBreakpoint, tabletBreakpoint)) * windowHeight as real
  {
    var bottom := (top + height) as real;
    if windowWidth < mobileBreakpoint then bottom - 0.5 * windowHeight as real
    else if windowWidth <= tabletBreakpoint then bottom - 0.75 * windowHeight as real
    else bottom - windowHeight as real
  }

  /** Playback is allowed once the canvas's bottom edge is between half the
      viewport and the whole viewport above the scroll position. */
  lemma TriggerPointWithinViewport(top: int, height: int, windowWidth: int, windowHeight: int,
                                   mobileBreakpoint: int, tabletBreakpoint: int)
    requires windowHeight >= 0
    ensures var p := TriggerPoint(top, height, windowWidth, windowHeight, mobileBreakpoint, tabletBreakpoint);
            (top + height - windowHeight) as real <= p <= (top + height) as real - 0.5 * windowHeight as real
  {
  }

  /** A wider viewport never triggers later. */
  lemma WiderTriggersNoLater(top: int, height: int, w1: int, w2: int, windowHeight: int,
                             mobileBreakpoint: int, tabletBreakpoint: int)
    requires windowHeight >= 0 && w1 <= w2
    ensures TriggerPoint(top, height, w2, windowHeight, mobileBreakpoint, tabletBreakpoint)
            <= TriggerPoint(top, height, w1, windowHeight, mobileBreakpoint, tabletBreakpoint)
  {
  }
}
