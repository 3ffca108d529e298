/** The animation coordinator: the state `setupCanvas` keeps in its closure
    for one canvas, and one method per event that changes it (image load,
    init timer, scroll, start delay, animation frame, resize), plus the
    plugin's activation entry point.

    What the page is read for is passed in: the parent's width, the
    canvas's top offset and displayed height, the viewport's size, the
    scroll offset and the clock (`now`, in ticks of 1/3 ms). A paint is
    recorded as the index of the frame drawn. Host timers and frame
    requests are recorded as the time a timer is due, or as a flag. */
module Animation {
  import opened Config
  import opened Sizing
  import opened Trigger
  import opened Frames
  import opened Playback

  /** Whether `$.fn.canvasAnimation` sets anything up: only on a canvas
      element, and only with at least one image. */
  function Activates(tagName: string, images: seq<string>): (active: bool)
    ensures |images| == 0 ==> !active
    ensures tagName != "CANVAS" ==> !active
    ensures tagName == "CANVAS" && |images| > 0 ==> active
  {
    tagName == "CANVAS" && |images| != 0
  }

  /** Whether a scroll to `scrollTop` starts playback: not yet played, every
      image loaded, and the scroll offset past a trigger point that has been
      computed (comparing with an undefined trigger point is false). */
  function ShouldStart(hasAnimated: bool, loadedImageCount: nat, imageCount: nat,
                       scrollTop: int, triggerPoint: Option<real>): (start: bool)
    // the latch: never again once played
    ensures hasAnimated ==> !start
    // comparing with an undefined trigger point is false
    ensures triggerPoint == None ==> !start
    ensures start ==> loadedImageCount == imageCount && scrollTop as real > triggerPoint.value
  {
    && !hasAnimated
    && loadedImageCount == imageCount
    && triggerPoint.Some?
    && scrollTop as real > triggerPoint.value
  }

  /** The frame a resize repaints: the last one once playback has started,
      the first one before. */
  function RestingFrame(hasAnimated: bool, imageCount: nat): (i: nat)
    requires imageCount > 0
    ensures i < imageCount
    ensures hasAnimated ==> i == imageCount - 1
    ensures !hasAnimated ==> i == 0
  {
    if hasAnimated then imageCount - 1 else 0
  }

  class CanvasAnimation {
    const options: Options
    const retina: bool

    /** The frames, in playback order (`images`). */
    var images: seq<Frame>
    /** Which frames have fired their load event. */
    ghost var loaded: seq<bool>
    var loadedImageCount: nat
    /** The index of the frame shown (`currentImage`). */
    var currentImage: nat
    /** The one-way latch: playback has been started. */
    var hasAnimated: bool
    /** The time of the last frame advance (`then`). */
    var lastFrameTime: int
    /** `canvasWidth` and `canvasHeight`; undefined until first sized. */
    var geometry: Option<Geometry>
    /** `animationTriggerPoint`; undefined until first computed. */
    var animationTriggerPoint: Option<real>
    /** The indices of the frames painted on the canvas, oldest first. */
    var paints: seq<nat>
    /** The one-second sizing timer of `init`, while pending: when it is due. */
    var initTimerDue: Option<int>
    /** The 500 ms start timer, while pending: when it is due. */
    var startTimerDue: Option<int>
    /** An animation-frame callback is requested. */
    var framePending: bool
    /** The scroll and resize handlers are bound. */
    var scrollBound: bool
    var resizeBound: bool
    /** How many times playback has been started. */
    ghost var starts: nat

    ghost predicate Valid()
      reads this
      ensures Valid() ==> loadedImageCount <= |images|
      ensures Valid() && hasAnimated ==> loadedImageCount == |images|
    {
      AllLoadedIffCount(loaded);
      && ValidOptions(options)
      && images == FramesOf(options.images) && |images| >= 1
      && |loaded| == |images|
      && loadedImageCount == CountLoaded(loaded)
      && currentImage <= |images|
      // the latch: playback is started at most once, and only after every frame loaded
      && starts == (if hasAnimated then 1 else 0)
      && (hasAnimated ==> !scrollBound && forall i :: 0 <= i < |loaded| ==> loaded[i])
      // Idle: nothing scheduled, first frame
      && (!hasAnimated ==> currentImage == 0 && startTimerDue == None && !framePending)
      // Delayed: waiting for the start timer, no frame callback yet
      && (startTimerDue != None ==> currentImage == 0 && !framePending)
      // Finished: neither timer nor callback left, and only at the end
      && (hasAnimated && startTimerDue == None && !framePending ==> currentImage == |images|)
    }

    /** `setupCanvas` followed by `init`: the closure's initial state, the
        one-second sizing timer, the frames created in order, the first
        `maybeAnimate` (which cannot start anything yet) and the handlers
        bound. */
    constructor (options: Options, retina: bool, now: int, windowWidth: int, scrollTop: int)
      requires ValidOptions(options) && |options.images| >= 1
      ensures Valid()
      ensures this.options == options && this.retina == retina
      ensures images == FramesOf(options.images)
      ensures loaded == seq(|images|, _ => false) && loadedImageCount == 0
      ensures !hasAnimated && currentImage == 0 && paints == []
      ensures geometry == None && animationTriggerPoint == None
      ensures initTimerDue == Some(now + InitDelay)
      ensures scrollBound && resizeBound
    {
      this.options := options;
      this.retina := retina;
      images, loaded := [], [];
      loadedImageCount, currentImage := 0, 0;
      hasAnimated, lastFrameTime := false, 0;
      geometry, animationTriggerPoint := None, None;
      paints := [];
      initTimerDue, startTimerDue := None, None;
      framePending, scrollBound, resizeBound := false, false, false;
      starts := 0;
      new;
      initTimerDue := Some(now + InitDelay);
      LoadImages();
      CountLoadedNone(|images|);
      MaybeAnimate(scrollTop, windowWidth, now);
      resizeBound, scrollBound := true, true;
    }

    /** The loop of `init` that creates one frame per configured URL. */
    method LoadImages()
      requires images == [] && loaded == []
      modifies this`images, this`loaded
      ensures images == FramesOf(options.images)
      ensures loaded == seq(|images|, _ => false)
    {
      for i := 0 to |options.images|
        invariant |images| == i && |loaded| == i
        invariant forall k :: 0 <= k < i ==> images[k] == Frame(options.images[k], k)
        invariant forall k :: 0 <= k < i ==> !loaded[k]
      {
        images := images + [Frame(options.images[i], i)];
        loaded := loaded + [false];
      }
    }

    /** `paintImage(images[slot])`: draws the frame in that slot, or nothing
        when the slot holds no image. */
    method PaintImage(slot: int)
      modifies this`paints
      ensures paints == old(paints) + PaintedSlot(slot, |images|)
    {
      if 0 <= slot < |images| {
        paints := paints + [slot];
      }
    }

    /** The load event of frame `index`: the first frame is painted at once,
        and the counter goes up by one. The browser fires it once per frame. */
    method OnImageLoad(index: nat)
      requires Valid() && index < |images| && !loaded[index]
      modifies this`loadedImageCount, this`loaded, this`paints
      ensures Valid()
      ensures loadedImageCount == old(loadedImageCount) + 1
      ensures loaded == old(loaded)[index := true]
      ensures paints == old(paints) + (if index == 0 then [0] else [])
    {
      if index == 0 {
        PaintImage(0);
      }
      loadedImageCount := loadedImageCount + 1;
      CountLoadedMark(loaded, index);
      loaded := loaded[index := true];
    }

    /** `setCanvasDimensions`. */
    method SetCanvasDimensions(parentWidth: int)
      requires ValidOptions(options)
      modifies this`geometry
      ensures geometry == Some(ComputeGeometry(parentWidth, retina, options.imageRatio))
    {
      var width, height;
      if retina {
        width := parentWidth * 2;
        height := CanvasHeight(parentWidth * 2, options.imageRatio);
      } else {
        width := parentWidth;
        height := CanvasHeight(parentWidth, options.imageRatio);
      }
      geometry := Some(Geometry(width, height));
    }

    /** `animationTriggerPoint = getAnimationTriggerPoint()`. */
    method SetTriggerPoint(top: int, displayHeight: int, windowWidth: int, windowHeight: int)
      modifies this`animationTriggerPoint
      ensures animationTriggerPoint == Some(TriggerPoint(top, displayHeight, windowWidth, windowHeight,
                                                         options.mobileBreakpoint, options.tabletBreakpoint))
    {
      animationTriggerPoint := Some(TriggerPoint(top, displayHeight, windowWidth, windowHeight,
                                                 options.mobileBreakpoint, options.tabletBreakpoint));
    }

    /** The one-second timer of `init`: size the canvas, compute the trigger
        point and paint the first frame again. */
    method OnInitTimer(now: int, parentWidth: int, top: int, displayHeight: int,
                       windowWidth: int, windowHeight: int)
      requires Valid() && initTimerDue.Some? && now >= initTimerDue.value
      modifies this`geometry, this`animationTriggerPoint, this`paints, this`initTimerDue
      ensures Valid() && initTimerDue == None
      ensures geometry == Some(ComputeGeometry(parentWidth, retina, options.imageRatio))
      ensures animationTriggerPoint == Some(TriggerPoint(top, displayHeight, windowWidth, windowHeight,
                                                         options.mobileBreakpoint, options.tabletBreakpoint))
      ensures paints == old(paints) + [0]
    {
      SetCanvasDimensions(parentWidth);
      SetTriggerPoint(top, displayHeight, windowWidth, windowHeight);
      PaintImage(0);
      initTimerDue := None;
    }

    /** `maybeAnimate` on a scroll to `scrollTop` at time `now`: when the
        three conditions hold, latch `hasAnimated`, start the clock, unbind
        the scroll handler and start playback, after 500 ms on viewports at
        least as wide as the mobile breakpoint and at once on narrower ones.
        Otherwise nothing changes. */
    method MaybeAnimate(scrollTop: int, windowWidth: int, now: int)
      requires Valid()
      modifies this`lastFrameTime, this`hasAnimated, this`scrollBound, this`startTimerDue,
               this`framePending, this`starts
      ensures Valid()
      ensures old(hasAnimated) ==> hasAnimated
      ensures !ShouldStart(old(hasAnimated), loadedImageCount, |images|, scrollTop, animationTriggerPoint) ==>
                unchanged(this)
      ensures ShouldStart(old(hasAnimated), loadedImageCount, |images|, scrollTop, animationTriggerPoint) ==>
                && hasAnimated && starts == old(starts) + 1
                && lastFrameTime == now && !scrollBound
                && (windowWidth >= options.mobileBreakpoint ==>
                      startTimerDue == Some(now + StartDelay) && !framePending)
                && (windowWidth < options.mobileBreakpoint ==>
                      startTimerDue == None && framePending)
    {
      if !hasAnimated && loadedImageCount == |images| &&
         animationTriggerPoint.Some? && scrollTop as real > animationTriggerPoint.value
      {
        AllLoadedIffCount(loaded);
        lastFrameTime := now;
        hasAnimated := true;
        starts := starts + 1;
        scrollBound := false;
        if windowWidth >= options.mobileBreakpoint {
          startTimerDue := Some(now + StartDelay);
        } else {
          framePending := true;
        }
      }
    }

    /** The 500 ms start timer fires: request the first animation frame. */
    method OnStartTimer(now: int)
      requires Valid() && startTimerDue.Some? && now >= startTimerDue.value
      modifies this`startTimerDue, this`framePending
      ensures Valid() && startTimerDue == None && framePending
    {
      framePending := true;
      startTimerDue := None;
    }

    /** `animate`, the animation-frame callback, at time `now`: one step of
        the rate-limited stepper, painting the frame it advances to. */
    method Animate(now: int)
      requires Valid() && framePending
      modifies this`currentImage, this`lastFrameTime, this`framePending, this`paints
      ensures Valid()
      ensures var s := TickState(old(currentImage), old(lastFrameTime), true);
              var r := Tick(s, |images|, now, options.frameInterval);
              && TickState(currentImage, lastFrameTime, framePending) == r
              && paints == old(paints) + TickPaints(s, r, |images|)
    {
      framePending := true;
      var elapsed := now - lastFrameTime;
      if currentImage >= |images| {
        framePending := false;
      } else if elapsed > options.frameInterval {
        lastFrameTime := now - elapsed % options.frameInterval;
        currentImage := currentImage + 1;
        PaintImage(currentImage);
      }
    }

    /** The throttled resize handler: size the canvas, recompute the trigger
        point and repaint the resting frame, which has always loaded once
        playback has started. */
    method OnResize(parentWidth: int, top: int, displayHeight: int, windowWidth: int, windowHeight: int)
      requires Valid() && resizeBound
      modifies this`geometry, this`animationTriggerPoint, this`paints
      ensures Valid()
      ensures geometry == Some(ComputeGeometry(parentWidth, retina, options.imageRatio))
      ensures animationTriggerPoint == Some(TriggerPoint(top, displayHeight, windowWidth, windowHeight,
                                                         options.mobileBreakpoint, options.tabletBreakpoint))
      ensures paints == old(paints) + [RestingFrame(hasAnimated, |images|)]
      ensures hasAnimated ==> loaded[RestingFrame(hasAnimated, |images|)]
    {
      SetCanvasDimensions(parentWidth);
      SetTriggerPoint(top, displayHeight, windowWidth, windowHeight);
      if hasAnimated {
        PaintImage(|images| - 1);
      } else {
        PaintImage(0);
      }
    }
  }

  /** `$.fn.canvasAnimation`: sets up and initialises the animation on a
      canvas with at least one image, and is inert otherwise. */
  method CanvasAnimationPlugin(tagName: string, options: Options, retina: bool,
                               now: int, windowWidth: int, scrollTop: int)
    returns (animation: CanvasAnimation?)
    requires Activates(tagName, options.images) ==> ValidOptions(options)
    ensures animation != null <==> Activates(tagName, options.images)
    ensures animation != null ==>
              && fresh(animation) && animation.Valid()
              && animation.options == options && animation.retina == retina
              && animation.images == FramesOf(options.images)
              && animation.loaded == seq(|options.images|, _ => false)
              && animation.paints == [] && !animation.hasAnimated
              && animation.geometry == None && animation.animationTriggerPoint == None
              && animation.initTimerDue == Some(now + InitDelay)
              && animation.scrollBound && animation.resizeBound
  {
    if tagName == "CANVAS" && |options.images| != 0 {
      animation := new CanvasAnimation(options, retina, now, windowWidth, scrollTop);
    } else {
      animation := null;
    }
  }
}
