# Canvas frame-sequence animation, modelled in Dafny

The jQuery plugin `canvasAnimation` plays a sequence of preloaded images on a
`<canvas>` once the page is scrolled past a trigger point, exactly once, at a
fixed frame rate. This project models its core, the state that `setupCanvas`
keeps in its closure and the event handlers that change it, and proves the
properties the plugin depends on:

- `Config` — the options after merging with the defaults (image ratio
  1050/263, frame interval 1000/30 ms, mobile breakpoint 768, tablet breakpoint
  1024) and the time unit.
- `Sizing` — `setCanvasDimensions`: the backing-store width, doubled on a
  high-density display, and the height `Math.ceil(width / imageRatio)`,
  characterised as the least integer h with h · ratio ≥ width.
- `Trigger` — `getAnimationTriggerPoint`: `top + height − k · windowHeight`
  with k = 0.5, 0.75 or 1 by breakpoint regime.
- `Frames` — the frames created by `init`, the load counter, and the
  `instanceof Image` paint guard.
- `Playback` — the rate-limited stepper `animate`: one step (`Tick`), its
  phase-corrected clock (`PhaseCorrected`) and runs of many steps (`Run`).
- `Animation` — the class `CanvasAnimation` with one method per event (image
  load, the one-second sizing timer, scroll, the 500 ms start timer, animation
  frame, resize) and the activation entry point `$.fn.canvasAnimation`.
  Its invariant `Valid()` holds the state machine: the index never passes the
  number of frames, the `hasAnimated` latch is set at most once and only after
  every frame loaded, and the loop is cancelled only at the end.
- `Scenario` — a client that drives three frames from activation to the end
  of playback and a resize.
- `Arith` — multiplication and division facts used by the proofs.

Units: time is counted in ticks of one third of a millisecond, so that the
default interval of 1000/30 ms is exactly 100 ticks, the 500 ms start delay is
1500 and the one-second sizing timer is 3000. The image ratio is the exact
fraction `num/den`; the trigger point is an exact `real`. Everything the
plugin reads from the page (parent width, canvas top offset and displayed
height, viewport width and height, scroll offset, the clock, the
device-pixel-ratio test) is a parameter.

## Model

| member | source | states |
|---|---|---|
| `Sizing.CeilDiv` | jquery.canvas-animatino.js:149-152 | `Math.ceil(a / b)`: q · b ≥ a and (q − 1) · b < a |
| `Sizing.CeilDivLeast` | jquery.canvas-animatino.js:149-152 | every h with h · b ≥ a is at least the ceiling |
| `Sizing.CanvasHeight` | jquery.canvas-animatino.js:149-152 | the height h satisfies h · ratio ≥ width > (h − 1) · ratio |
| `Sizing.CanvasHeightIsLeast` | jquery.canvas-animatino.js:149-152 | the height is the least integer h with h · ratio ≥ width |
| `Sizing.ComputeGeometry` | jquery.canvas-animatino.js:147-153 | width is the parent width, times 2 on a high-density display; height is the ceiling of width / ratio; both come from one computation |
| `Sizing.CanvasHeightMonotone` | jquery.canvas-animatino.js:149-152 | a wider canvas is never lower |
| `Sizing.RetinaHeightDoubles` | jquery.canvas-animatino.js:147-153 | the high-density height is twice the normal one or one less |
| `Trigger.RegimeOf` | jquery.canvas-animatino.js:166-172 | the branch taken: mobile iff width < mobile breakpoint; tablet iff mobile ≤ width ≤ tablet breakpoint; desktop iff width is at least the mobile breakpoint and above the tablet one (one regime, so one branch, per width) |
| `Trigger.Share` | jquery.canvas-animatino.js:167-171 | the factor k of each branch (0.5, 0.75, 1) lies between one half and one, and is the whole viewport height only in the desktop branch |
| `Trigger.TriggerPoint` | jquery.canvas-animatino.js:163-175 | the point is top + height − k · windowHeight with k the share of the regime (0.5, 0.75, 1) |
| `Trigger.TriggerPointWithinViewport` | jquery.canvas-animatino.js:166-172 | the point lies between the canvas bottom minus a whole viewport and minus half a viewport |
| `Trigger.WiderTriggersNoLater` | jquery.canvas-animatino.js:166-172 | a wider viewport never gives a later trigger point |
| `Frames.FramesOf` | jquery.canvas-animatino.js:266-268 | one frame per URL, in order, frame i carrying URL i and index i |
| `Frames.CountLoaded` | jquery.canvas-animatino.js:117 | the number of loaded frames never exceeds the number of frames |
| `Frames.CountLoadedNone` | jquery.canvas-animatino.js:65 | before any load the counter is 0 |
| `Frames.CountLoadedMark` | jquery.canvas-animatino.js:117 | one more load raises the counter by exactly one |
| `Frames.AllLoadedIffCount` | jquery.canvas-animatino.js:209 | `loadedImageCount === images.length` exactly when every frame has loaded |
| `Frames.PaintedSlot` | jquery.canvas-animatino.js:129-138 | a slot is drawn iff it holds an image (0 ≤ slot < count), and then only that frame |
| `Playback.PhaseCorrected` | jquery.canvas-animatino.js:193 | the new `then` is within one interval before now, and moved forward by a positive whole number of intervals |
| `Playback.Tick` | jquery.canvas-animatino.js:185-197 | at the end: cancel and change nothing else; too early: nothing changes; otherwise advance by exactly one with the phase-corrected clock |
| `Playback.TickPaints` | jquery.canvas-animatino.js:194-195 | a tick paints at most one frame: the frame it advanced to, and only when that index holds an image |
| `Playback.Run` | jquery.canvas-animatino.js:185-197 | the chain of animation-frame callbacks: no callback runs after a cancel, and each callback paints at most one frame |
| `Playback.RunBounded` | jquery.canvas-animatino.js:185-197 | over any callback times: the index only grows and never passes the frame count, `then` never moves back, the frames painted are the consecutive indices after the start up to the last frame, and the loop stops only at the end |
| `Playback.RunFinishes` | jquery.canvas-animatino.js:190-195 | callbacks more than an interval apart, more of them than frames left, bring the index to the frame count and cancel the loop |
| `Animation.Activates` | jquery.canvas-animatino.js:289-291 | the plugin is inert on any element other than a canvas and with an empty image list |
| `Animation.ShouldStart` | jquery.canvas-animatino.js:207-211 | the start guard: never once `hasAnimated` is set, never before the trigger point is known, and only with every frame loaded and the scroll offset past the trigger point |
| `Animation.RestingFrame` | jquery.canvas-animatino.js:276-280 | the repainted frame exists; it is the last after playback started and the first before |
| `Animation.CanvasAnimation.Valid` | jquery.canvas-animatino.js:47-92 | the closure-state invariant: the index within the frame count, the load counter within the frame count and equal to it once playback started, the latch set at most once and never before every frame loaded, and the loop cancelled only at the end |
| `Animation.CanvasAnimation.constructor` | jquery.canvas-animatino.js:236-283 | initial closure state, frames created from the URLs, sizing timer due in one second, first `maybeAnimate` starts nothing, handlers bound |
| `Animation.CanvasAnimation.LoadImages` | jquery.canvas-animatino.js:266-268 | one frame per URL, in order, none loaded |
| `Animation.CanvasAnimation.PaintImage` | jquery.canvas-animatino.js:129-138 | the paint log grows by the slot's frame, or not at all when the slot holds no image |
| `Animation.CanvasAnimation.OnImageLoad` | jquery.canvas-animatino.js:111-118 | the counter grows by one, that frame is marked loaded, only the load of frame 0 paints (frame 0) |
| `Animation.CanvasAnimation.SetCanvasDimensions` | jquery.canvas-animatino.js:144-157 | width and height are set together to `ComputeGeometry` |
| `Animation.CanvasAnimation.SetTriggerPoint` | jquery.canvas-animatino.js:274 | the trigger point is set to `TriggerPoint` of the readings |
| `Animation.CanvasAnimation.OnInitTimer` | jquery.canvas-animatino.js:255-263 | sizes the canvas, sets the trigger point, repaints frame 0, clears the timer |
| `Animation.CanvasAnimation.MaybeAnimate` | jquery.canvas-animatino.js:203-230 | changes nothing unless not yet played, all loaded and scrolled past a known trigger point; then latches `hasAnimated`, sets `then` to now, unbinds scrolling, and starts after 500 ms if the viewport is at least the mobile breakpoint wide, at once otherwise; the latch is never reset and playback starts at most once |
| `Animation.CanvasAnimation.OnStartTimer` | jquery.canvas-animatino.js:222-225 | the start timer requests the first animation frame |
| `Animation.CanvasAnimation.Animate` | jquery.canvas-animatino.js:185-197 | the new index, `then` and request flag are one `Tick` of the old ones, and the frame it advances to is painted if it exists; the index stays within the frame count |
| `Animation.CanvasAnimation.OnResize` | jquery.canvas-animatino.js:272-281 | re-sizes, recomputes the trigger point, repaints the last frame after playback started and frame 0 before; that frame has loaded |
| `Animation.CanvasAnimationPlugin` | jquery.canvas-animatino.js:286-297 | an animation is set up iff the element is a canvas and the image list is non-empty; otherwise nothing happens |

## Behaviour of the code worth knowing

- The index reaches `images.length`: the last advance paints `images[length]`,
  which is no image, so nothing is drawn, and the callback after that cancels
  the loop (jquery.canvas-animatino.js:190-195).
- `then` is set when the trigger fires, not when the 500 ms delay ends
  (jquery.canvas-animatino.js:212), so on a wide viewport the first frame
  callback advances at once (see `Scenario.ScrollAndPlay`).
- The trigger point uses the canvas's displayed height `$canvas.height()`
  (jquery.canvas-animatino.js:167-171), not the backing-store height
  `canvasHeight`. When the page's CSS fits the canvas to its parent, the two
  differ (on a high-density display `canvasHeight` is about twice the
  displayed height); without such CSS the displayed height is the `height`
  attribute, that is `canvasHeight` itself. The model takes the displayed
  height as a reading.
- The shares 0.5, 0.75 and 1 of the viewport height are fixed constants in
  the code (jquery.canvas-animatino.js:167-171); only the breakpoints are
  options.
- Until the one-second sizing timer (or a resize) has run, the trigger point is
  undefined and no scroll can start playback; the `maybeAnimate` call in
  `init` (jquery.canvas-animatino.js:270) can never start it.

## Left out

- Host scheduling: `requestAnimationFrame`/`cancelAnimationFrame` are the flag
  `framePending`; `setTimeout` timers are the time they are due; the host
  calls the handlers, and no timer fires early.
- `Date.now()` is the `now` parameter; the clock is not assumed monotone.
- Image loading (`new Image()`, `src`, the network): only the load event's
  effect on the counter and the first paint. A frame that never loads is a
  load event that never happens. The browser fires each frame's load event
  at most once, which `OnImageLoad` requires.
- Drawing: `context.drawImage`, its draw height `canvasWidth / imageRatio`,
  and the `console.log` of a failed draw; a paint is the index of the frame
  drawn.
- jQuery: `$.extend` merging (the model receives merged options; a missing
  `images` option counts as empty, and calling the plugin with no options at
  all, which throws in the code, is not modelled), `$.throttle`, `bind` and
  `unbind` (flags `scrollBound` and `resizeBound`), selector lookups, and the
  choice of scroll container by the fixed width 1024
  (jquery.canvas-animatino.js:240): the scroll offset is a reading of
  whichever container was chosen.
- `isRetina` (`window.devicePixelRatio > 1`) is the boolean parameter `retina`.
- Floating point: the ratio is an exact fraction, the frame interval a whole
  number of 1/3 ms ticks, the trigger point an exact real, and heights an
  exact ceiling; JavaScript rounding is not modelled.
- Options with a non-positive ratio or frame interval are excluded by the
  constructor's precondition. With them the code divides or takes a remainder
  by zero, computes infinite or negative heights, or (with a negative interval)
  has an interval that never holds a frame back.
- The module `Scenario` is a client of the model, not a model of the plugin,
  and has no rows above.
