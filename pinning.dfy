/** The scroll-pinned sections: the pin decision and the parallax offset
    that handleScrollPinning computes for one section from its bounding box. */
module Pinning {
  import opened Config
  import opened Geometry

  /** A bounding client rectangle, reduced to what the handler reads;
      `rect.bottom` is top + height. */
  datatype Rect = Rect(top: real, height: real) {
    function Bottom(): real { top + height }
  }

  /** The section's inline `style.position`: untouched, "sticky" or "relative". */
  datatype Position = Unset | Sticky | Relative

  /** The inner content's inline `style.transform`: empty, or `translateY(px)`. */
  datatype Transform = NoTransform | TranslateY(px: real)

  /** The inline style fields the handler writes on a section and on its
      `.scroll-section-inner` child; `topZero` is `style.top = "0"`. */
  datatype SectionStyle = SectionStyle(position: Position, topZero: bool, innerTransform: Transform)

  /** A section as the page loads: no inline style set. */
  const INITIAL_STYLE := SectionStyle(Unset, false, NoTransform)

  /** Pinned while the section's top is at or above the viewport top and its
      bottom is still below the viewport bottom. */
  predicate IsPinned(rect: Rect, windowHeight: real)
  {
    rect.top <= 0.0 && rect.Bottom() > windowHeight
  }

  /** `scrollRange = sectionHeight - windowHeight`. */
  function ScrollRange(rect: Rect, windowHeight: real): real
  {
    rect.height - windowHeight
  }

  /** `currentScroll - (sectionTop - windowHeight)` with
      `sectionTop = rect.top + scrollY`: the scroll offset cancels, leaving
      the distance the section's top has travelled above the viewport bottom. */
  function ScrolledInSection(rect: Rect, scrollY: real, windowHeight: real): (r: real)
    ensures r == windowHeight - rect.top
  {
    var sectionTop := rect.top + scrollY;
    scrollY - (sectionTop - windowHeight)
  }

  /** A pinned section is always taller than the viewport, so the range is
      positive and the handler's `scrollRange > 0` guard always holds. */
  lemma PinnedRangePositive(rect: Rect, windowHeight: real)
    requires IsPinned(rect, windowHeight)
    ensures ScrollRange(rect, windowHeight) > 0.0
    ensures ScrollRange(rect, windowHeight) > -rect.top
  {
  }

  /** The clamped progress through a pinned section. */
  function PinProgress(rect: Rect, scrollY: real, windowHeight: real): (r: real)
    requires IsPinned(rect, windowHeight)
    ensures 0.0 <= r <= 1.0
  {
    PinnedRangePositive(rect, windowHeight);
    Clamp01(ScrolledInSection(rect, scrollY, windowHeight) / ScrollRange(rect, windowHeight))
  }

  /** `progress * 30`. */
  function ParallaxOffset(progress: real): (r: real)
    ensures 0.0 <= progress <= 1.0 ==> 0.0 <= r <= PARALLAX_MAX
    ensures progress == 0.0 ==> r == 0.0
    ensures progress == 1.0 ==> r == PARALLAX_MAX
  {
    progress * PARALLAX_MAX
  }

  /** One section's styles after one pass of handleScrollPinning (with
      reduced motion off). `hasInner` says whether the section has a
      `.scroll-section-inner` child. */
  function PinStep(style: SectionStyle, rect: Rect, scrollY: real, windowHeight: real, hasInner: bool): SectionStyle
  {
    if IsPinned(rect, windowHeight) then
      var transform :=
        if hasInner && ScrollRange(rect, windowHeight) > 0.0
        then TranslateY(ParallaxOffset(PinProgress(rect, scrollY, windowHeight)))
        else style.innerTransform;
      SectionStyle(Sticky, true, transform)
    else
      SectionStyle(Relative, style.topZero, if hasInner then NoTransform else style.innerTransform)
  }

  /** One pass of handleScrollPinning over all sections, each with its own
      rectangle and inner-content flag. */
  function PinPass(styles: seq<SectionStyle>, rects: seq<Rect>, scrollY: real, windowHeight: real, hasInner: seq<bool>): seq<SectionStyle>
    requires |rects| == |styles| && |hasInner| == |styles|
  {
    seq(|styles|, i requires 0 <= i < |styles| => PinStep(styles[i], rects[i], scrollY, windowHeight, hasInner[i]))
  }

  /** A pinned section is sticky at top 0 and, when it has inner content,
      carries a translateY offset in [0, 30] px. */
  lemma PinnedStyle(style: SectionStyle, rect: Rect, scrollY: real, windowHeight: real, hasInner: bool)
    requires IsPinned(rect, windowHeight)
    ensures PinStep(style, rect, scrollY, windowHeight, hasInner).position == Sticky
    ensures PinStep(style, rect, scrollY, windowHeight, hasInner).topZero
    ensures hasInner ==> PinStep(style, rect, scrollY, windowHeight, hasInner).innerTransform
                         == TranslateY(ParallaxOffset(PinProgress(rect, scrollY, windowHeight)))
    ensures hasInner ==> 0.0 <= PinStep(style, rect, scrollY, windowHeight, hasInner).innerTransform.px <= PARALLAX_MAX
    ensures !hasInner ==> PinStep(style, rect, scrollY, windowHeight, hasInner).innerTransform == style.innerTransform
  {
    PinnedRangePositive(rect, windowHeight);
  }

  /** A section outside its pin window is relative, keeps its `top`, and has
      its inner transform cleared. */
  lemma UnpinnedStyle(style: SectionStyle, rect: Rect, scrollY: real, windowHeight: real, hasInner: bool)
    requires !IsPinned(rect, windowHeight)
    ensures PinStep(style, rect, scrollY, windowHeight, hasInner)
         == SectionStyle(Relative, style.topZero, if hasInner then NoTransform else style.innerTransform)
  {
  }

  /** Neither the pin mode nor the offset depends on the scroll offset. */
  lemma PinIgnoresScroll(style: SectionStyle, rect: Rect, scrollA: real, scrollB: real, windowHeight: real, hasInner: bool)
    ensures PinStep(style, rect, scrollA, windowHeight, hasInner)
         == PinStep(style, rect, scrollB, windowHeight, hasInner)
  {
    if IsPinned(rect, windowHeight) {
      assert ScrolledInSection(rect, scrollA, windowHeight) == ScrolledInSection(rect, scrollB, windowHeight);
    }
  }

  /** The pin mode and, for a section with inner content, the offset are
      recomputed from the current geometry alone: whatever styles the
      section had before, one pass gives the same position and transform. */
  lemma PinFromGeometryOnly(a: SectionStyle, b: SectionStyle, rect: Rect, scrollY: real, windowHeight: real, hasInner: bool)
    ensures PinStep(a, rect, scrollY, windowHeight, hasInner).position
         == PinStep(b, rect, scrollY, windowHeight, hasInner).position
    ensures hasInner ==> PinStep(a, rect, scrollY, windowHeight, hasInner).innerTransform
                         == PinStep(b, rect, scrollY, windowHeight, hasInner).innerTransform
  {
    if IsPinned(rect, windowHeight) {
      PinnedRangePositive(rect, windowHeight);
    }
  }

  /** Two frames with the same geometry leave the same styles. */
  lemma PinStepIdempotent(style: SectionStyle, rect: Rect, scrollY: real, windowHeight: real, hasInner: bool)
    ensures PinStep(PinStep(style, rect, scrollY, windowHeight, hasInner), rect, scrollY, windowHeight, hasInner)
         == PinStep(style, rect, scrollY, windowHeight, hasInner)
  {
  }

  /** a / d >= 1 when a >= d > 0. */
  lemma DivAtLeastOne(a: real, d: real)
    requires a >= d > 0.0
    ensures a / d >= 1.0
  {
    var q := a / d;
    assert q * d == a;
  }

  /** a / d > 0 when a > 0 and d > 0. */
  lemma DivPositive(a: real, d: real)
    requires a > 0.0 && d > 0.0
    ensures a / d > 0.0
  {
    var q := a / d;
    assert q * d == a;
  }

  /** With a positive viewport the progress is never 0 inside the pin
      window: the numerator is at least the viewport height, so a section
      never starts pinning at offset 0. */
  lemma PinnedProgressPositive(rect: Rect, scrollY: real, windowHeight: real)
    requires windowHeight > 0.0 && IsPinned(rect, windowHeight)
    ensures PinProgress(rect, scrollY, windowHeight) > 0.0
  {
    PinnedRangePositive(rect, windowHeight);
    DivPositive(windowHeight - rect.top, ScrollRange(rect, windowHeight));
  }

  /** A section at most twice the viewport height is at progress 1 for its
      whole pin window, so its offset stays at the maximum. */
  lemma ShortSectionSaturates(rect: Rect, scrollY: real, windowHeight: real)
    requires windowHeight > 0.0 && IsPinned(rect, windowHeight)
    requires rect.height <= 2.0 * windowHeight
    ensures PinProgress(rect, scrollY, windowHeight) == 1.0
  {
    PinnedRangePositive(rect, windowHeight);
    DivAtLeastOne(windowHeight - rect.top, ScrollRange(rect, windowHeight));
  }

  /** Within the pin window, scrolling down (the top decreasing) never
      decreases the progress. */
  lemma PinProgressMonotone(lower: Rect, upper: Rect, scrollY: real, windowHeight: real)
    requires lower.height == upper.height && lower.top <= upper.top
    requires IsPinned(lower, windowHeight) && IsPinned(upper, windowHeight)
    ensures PinProgress(upper, scrollY, windowHeight) <= PinProgress(lower, scrollY, windowHeight)
  {
    PinnedRangePositive(upper, windowHeight);
    DivMonotone(windowHeight - upper.top, windowHeight - lower.top, ScrollRange(upper, windowHeight));
  }

  /** Viewport 800, section top 0, height 2000: progress 800/1200 and an
      offset of 20 px, whatever the scroll offset. */
  lemma EntryExample(scrollY: real)
    ensures IsPinned(Rect(0.0, 2000.0), 800.0)
    ensures PinProgress(Rect(0.0, 2000.0), scrollY, 800.0) == 2.0 / 3.0
    ensures ParallaxOffset(PinProgress(Rect(0.0, 2000.0), scrollY, 800.0)) == 20.0
  {
  }

  /** The same section scrolled 600 px (top -600): the ratio 1400/1200 is
      clamped, so the offset is the maximum 30 px. */
  lemma ScrolledExample(scrollY: real)
    ensures IsPinned(Rect(-600.0, 2000.0), 800.0)
    ensures PinProgress(Rect(-600.0, 2000.0), scrollY, 800.0) == 1.0
    ensures ParallaxOffset(PinProgress(Rect(-600.0, 2000.0), scrollY, 800.0)) == PARALLAX_MAX
  {
  }
}
