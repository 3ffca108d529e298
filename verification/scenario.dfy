/** A client of the model: three frames on a wide viewport, from activation
    to the end of playback and a resize afterwards. Times are in ticks of
    1/3 ms (t = 60 ms is 180). */
module Scenario {
  import opened Config
  import opened Sizing
  import opened Animation

  /** Activation, the three loads and the one-second sizing timer. */
  method LoadAndSize() returns (a: CanvasAnimation)
    ensures fresh(a) && a.Valid() && !a.hasAnimated && a.scrollBound && a.resizeBound
    ensures |a.images| == 3 && a.loadedImageCount == 3
    ensures a.options.mobileBreakpoint == 768 && a.options.frameInterval == 100
    ensures a.animationTriggerPoint == Some(1463.0)
    ensures a.paints == [0, 0]
  {
    var options := Defaults.(images := ["f0.jpg", "f1.jpg", "f2.jpg"]);
    var inert := CanvasAnimationPlugin("DIV", options, false, 0, 1280, 0);
    assert inert == null;
    var b := CanvasAnimationPlugin("CANVAS", options, false, 0, 1280, 0);
    a := b;

    // frame 0 loads first and is painted at once; then the others load
    a.OnImageLoad(0);
    a.OnImageLoad(2);
    a.OnImageLoad(1);
    assert a.paints == [0] && a.loadedImageCount == 3;

    // a scroll before the trigger point is known starts nothing
    a.MaybeAnimate(5000, 1280, 180);
    assert !a.hasAnimated;

    // after one second: a 1050 px wide canvas is 263 px high
    a.OnInitTimer(3000, 1050, 2000, 263, 1280, 800);
    assert a.geometry == Some(Geometry(1050, 263));
  }

  /** The scroll past the trigger point, playback, and a resize. */
  method ScrollAndPlay(a: CanvasAnimation)
    requires a.Valid() && !a.hasAnimated && a.scrollBound && a.resizeBound
    requires |a.images| == 3 && a.loadedImageCount == 3
    requires a.options.mobileBreakpoint == 768 && a.options.frameInterval == 100
    requires a.animationTriggerPoint == Some(1463.0)
    requires a.paints == [0, 0]
    modifies a
  {
    // the scroll past the trigger point starts playback 500 ms later, once
    a.MaybeAnimate(1500, 1280, 3180);
    assert a.hasAnimated && a.startTimerDue == Some(4680);
    a.MaybeAnimate(1600, 1280, 3240);
    assert a.lastFrameTime == 3180 && a.starts == 1;
    a.OnStartTimer(4680);

    // the clock started at the scroll, so the first callback advances at once
    a.Animate(4728);
    assert a.currentImage == 1 && a.lastFrameTime == 4680 && a.paints == [0, 0, 1];
    a.Animate(4760);
    assert a.currentImage == 1;
    a.Animate(4790);
    assert a.currentImage == 2 && a.paints == [0, 0, 1, 2];
    // the index reaches the number of frames, painting nothing
    a.Animate(4890);
    assert a.currentImage == 3 && a.paints == [0, 0, 1, 2] && a.framePending;
    // and the next callback cancels the loop
    a.Animate(4900);
    assert !a.framePending;

    // a resize after playback repaints the last frame
    a.OnResize(525, 1000, 132, 700, 600);
    assert a.paints == [0, 0, 1, 2, 2];
  }
}
