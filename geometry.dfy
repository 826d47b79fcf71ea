/** Viewport geometry: the pure utility functions of the page script. */
module Geometry {

  /** JavaScript's `a || b` on two numbers: a zero left operand is falsy, so
      the right one is taken. Used for `window.innerHeight || clientHeight`
      and `window.scrollY || window.pageYOffset`. */
  function OrElse(a: real, b: real): real
  {
    if a != 0.0 then a else b
  }

  /** `Math.max(0, Math.min(1, x))`. */
  function Clamp01(x: real): (r: real)
    ensures 0.0 <= r <= 1.0
    ensures 0.0 <= x <= 1.0 ==> r == x
    ensures x < 0.0 ==> r == 0.0
    ensures x > 1.0 ==> r == 1.0
  {
    if x < 0.0 then 0.0 else if x > 1.0 then 1.0 else x
  }

  /** isInViewport: the element's top edge lies in the viewport widened by
      `offset` pixels above and below. */
  predicate IsInViewport(top: real, viewportHeight: real, offset: real)
  {
    top >= -offset && top <= viewportHeight + offset
  }

  /** The band test, as the source states it: exactly the tops in
      [-offset, viewportHeight + offset]. */
  lemma InViewportBand(top: real, viewportHeight: real, offset: real)
    ensures IsInViewport(top, viewportHeight, offset)
        <==> -offset <= top <= viewportHeight + offset
  {
  }

  /** A larger offset never takes an element out of view. */
  lemma InViewportWidens(top: real, viewportHeight: real, small: real, large: real)
    requires small <= large
    requires IsInViewport(top, viewportHeight, small)
    ensures IsInViewport(top, viewportHeight, large)
  {
  }

  /** getScrollProgress: 0 before the element's top reaches the viewport
      bottom, 1 once its bottom has passed the viewport top, and the clamped
      ratio (windowHeight - top) / (windowHeight + height) in between. */
  function ScrollProgress(top: real, height: real, windowHeight: real): (r: real)
    requires windowHeight > 0.0 && height >= 0.0
    ensures 0.0 <= r <= 1.0
    ensures top > windowHeight ==> r == 0.0
    ensures top + height < 0.0 ==> r == 1.0
  {
    if top > windowHeight then 0.0
    else if top + height < 0.0 then 1.0
    else
      var scrolled := windowHeight - top;
      var total := windowHeight + height;
      Clamp01(scrolled / total)
  }

  /** a / d lies in [0, 1] when 0 <= a <= d. */
  lemma DivUnit(a: real, d: real)
    requires 0.0 <= a <= d && d > 0.0
    ensures 0.0 <= a / d <= 1.0
  {
    var q := a / d;
    assert q * d == a;
  }

  /** Dividing by a positive number keeps order. */
  lemma DivMonotone(a: real, b: real, d: real)
    requires a <= b && d > 0.0
    ensures a / d <= b / d
  {
    var p, q := a / d, b / d;
    assert p * d == a && q * d == b;
  }

  /** Between the two boundary branches the ratio already lies in [0, 1], so
      the clamp never changes it. */
  lemma ProgressUnclamped(top: real, height: real, windowHeight: real)
    requires windowHeight > 0.0 && height >= 0.0
    requires -height <= top <= windowHeight
    ensures ScrollProgress(top, height, windowHeight)
         == (windowHeight - top) / (windowHeight + height)
  {
    DivUnit(windowHeight - top, windowHeight + height);
  }

  /** The middle formula meets both boundary branches: it is 0 when the top
      is at the viewport bottom and 1 when the bottom is at the viewport top. */
  lemma ProgressBoundaries(height: real, windowHeight: real)
    requires windowHeight > 0.0 && height >= 0.0
    ensures ScrollProgress(windowHeight, height, windowHeight) == 0.0
    ensures ScrollProgress(-height, height, windowHeight) == 1.0
  {
    var total := windowHeight + height;
    ProgressUnclamped(windowHeight, height, windowHeight);
    assert (windowHeight - windowHeight) / total == 0.0;
    ProgressUnclamped(-height, height, windowHeight);
    assert (windowHeight - -height) / total == total / total == 1.0;
  }

  /** Scrolling down (the element's top decreasing, height and viewport
      fixed) never decreases the progress. */
  lemma ProgressMonotone(lower: real, upper: real, height: real, windowHeight: real)
    requires windowHeight > 0.0 && height >= 0.0
    requires lower <= upper
    ensures ScrollProgress(upper, height, windowHeight)
         <= ScrollProgress(lower, height, windowHeight)
  {
    if -height <= lower && upper <= windowHeight {
      ProgressUnclamped(lower, height, windowHeight);
      ProgressUnclamped(upper, height, windowHeight);
      DivMonotone(windowHeight - upper, windowHeight - lower, windowHeight + height);
    }
  }

  /** lerp: linear interpolation from `start` to `end` by `factor`. */
  function Lerp(start: real, end: real, factor: real): (r: real)
    ensures factor == 0.0 ==> r == start
    ensures factor == 1.0 ==> r == end
  {
    start + (end - start) * factor
  }

  /** A factor in [0, 1] gives a value between the two end points. */
  lemma LerpBetween(start: real, end: real, factor: real)
    requires 0.0 <= factor <= 1.0
    ensures start <= end ==> start <= Lerp(start, end, factor) <= end
    ensures end <= start ==> end <= Lerp(start, end, factor) <= start
  {
    var d := end - start;
    if d >= 0.0 {
      assert 0.0 <= d * factor <= d * 1.0;
    } else {
      assert d * 1.0 <= d * factor <= 0.0;
    }
  }

  /** The factor can be recovered from the interpolated value when the end
      points differ. */
  lemma LerpInverse(start: real, end: real, factor: real)
    requires start != end
    ensures (Lerp(start, end, factor) - start) / (end - start) == factor
  {
  }
}
