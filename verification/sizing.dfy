/** Surface sizing: the canvas's backing-store width and height, computed
    from the width of its parent, the high-density flag and the image ratio
    (`setCanvasDimensions`). */
module Sizing {
  import opened Config
  import opened Arith

  /** `canvasWidth` and `canvasHeight`, which are always set together. */
  datatype Geometry = Geometry(width: int, height: int)

  /** The integer ceiling of a / b (`Math.ceil`), for a positive divisor. */
  function CeilDiv(a: int, b: int): (q: int)
    requires b > 0
    ensures q * b >= a
    ensures (q - 1) * b < a
  {
    var q := (a + b - 1) / b;
    assert a + b - 1 == q * b + (a + b - 1) % b;
    assert (q - 1) * b == q * b - b;
    q
  }

  /** No integer smaller than CeilDiv(a, b) reaches a when multiplied by b. */
  lemma CeilDivLeast(a: int, b: int, h: int)
    requires b > 0 && h * b >= a
    ensures h >= CeilDiv(a, b)
  {
    var q := CeilDiv(a, b);
    if h < q {
      MulMonotone(h, q - 1, b);
      assert false;
    }
  }

  /** The height of a canvas of the given width whose contents have the
      ratio `ratio`: Math.ceil(width / ratio). */
  function CanvasHeight(width: int, ratio: Ratio): (h: int)
    requires ValidRatio(ratio)
    ensures h * ratio.num >= width * ratio.den
    ensures (h - 1) * ratio.num < width * ratio.den
  {
    CeilDiv(width * ratio.den, ratio.num)
  }

  /** The canvas height is the LEAST integer h with h * ratio >= width. */
  lemma CanvasHeightIsLeast(width: int, ratio: Ratio, h: int)
    requires ValidRatio(ratio)
    requires h * ratio.num >= width * ratio.den
    ensures CanvasHeight(width, ratio) <= h
  {
    CeilDivLeast(width * ratio.den, ratio.num, h);
  }

  /** `setCanvasDimensions`: the parent width, doubled on a high-density
      display, and the ceiling of that width divided by the ratio. */
  function ComputeGeometry(parentWidth: int, retina: bool, ratio: Ratio): (g: Geometry)
    requires ValidRatio(ratio)
    ensures retina ==> g.width == 2 * parentWidth
    ensures !retina ==> g.width == parentWidth
    ensures g.height * ratio.num >= g.width * ratio.den > (g.height - 1) * ratio.num
  {
    if retina then
      Geometry(parentWidth * 2, CanvasHeight(parentWidth * 2, ratio))
    else
      Geometry(parentWidth, CanvasHeight(parentWidth, ratio))
  }

  /** A wider parent never gives a lower canvas. */
  lemma CanvasHeightMonotone(w1: int, w2: int, ratio: Ratio)
    requires ValidRatio(ratio) && w1 <= w2
    ensures CanvasHeight(w1, ratio) <= CanvasHeight(w2, ratio)
  {
    var h2 := CanvasHeight(w2, ratio);
    assert w1 * ratio.den <= w2 * ratio.den by {
      assert (w2 - w1) * ratio.den >= 0;
    }
    CanvasHeightIsLeast(w1, ratio, h2);
  }

  /** Doubling the width on a high-density display doubles the height, up
      to the one pixel that rounding up can add: the backing store keeps
      the image ratio whichever density is reported. */
  lemma RetinaHeightDoubles(parentWidth: int, ratio: Ratio)
    requires ValidRatio(ratio)
    ensures var h1 := ComputeGeometry(parentWidth, false, ratio).height;
            var h2 := ComputeGeometry(parentWidth, true, ratio).height;
            2 * h1 - 1 <= h2 <= 2 * h1
  {
    var n, d := ratio.num, ratio.den;
    var h1 := CanvasHeight(parentWidth, ratio);
    var h2 := CanvasHeight(parentWidth * 2, ratio);
    var a := parentWidth * d;
    assert (parentWidth * 2) * d == 2 * a by { MulDouble(parentWidth, d); }
    // 2 * h1 reaches the doubled width, so h2 is at most 2 * h1.
    MulDouble(h1, n);
    CanvasHeightIsLeast(parentWidth * 2, ratio, 2 * h1);
    // Anything up to 2 * h1 - 2 falls short of it, so h2 is above that.
    MulDouble(h1 - 1, n);
    assert (2 * h1 - 2) * n < 2 * a;
    if h2 <= 2 * h1 - 2 {
      MulMonotone(h2, 2 * h1 - 2, n);
      assert false;
    }
  }
}
