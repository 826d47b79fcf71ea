/** The page script's shared state and DOM effects: the `state` object, the
    nav chrome, the reveal markers, the pinned sections' inline styles, and
    the handlers, listeners and init routine that update them. */
module ProductPage {
  import opened Config
  import opened Options
  import opened Geometry
  import opened Pinning
  import opened Navigation
  import opened Reveal
  import opened Frames

  /** What the window reports when a handler reads it. */
  datatype Viewport = Viewport(scrollY: real, pageYOffset: real, innerHeight: real, clientHeight: real, innerWidth: real)

  /** `window.scrollY || window.pageYOffset`. */
  function ScrollOffset(v: Viewport): real
  {
    OrElse(v.scrollY, v.pageYOffset)
  }

  /** `window.innerHeight || document.documentElement.clientHeight`. */
  function ViewportHeight(v: Viewport): real
  {
    OrElse(v.innerHeight, v.clientHeight)
  }

  /** The geometry read during one animation frame: the viewport, the tops
      of the fade and transform elements (one per list entry), the pinned
      sections' rectangles, and the `.dark-section` top (None when the page
      has none). */
  datatype Layout = Layout(
    view: Viewport,
    fadeTops: seq<real>,
    transformTops: seq<real>,
    sectionRects: seq<Rect>,
    darkSectionTop: Option<real>)

  /** The handlers the frame callback runs, as a log of their invocations. */
  datatype Handler = NavScroll | FadeAnimations | TransformAnimations | ScrollPinning | VisualItems

  const FRAME_ORDER: seq<Handler> := [NavScroll, FadeAnimations, TransformAnimations, ScrollPinning, VisualItems]

  class Page {
    // Configuration and the element lists queried at load.
    const reducedMotion: bool
    const hasObserver: bool
    const fadeElements: seq<ElementId>
    const transformElements: seq<ElementId>
    const visualItems: seq<ElementId>
    const sectionHasInner: seq<bool>
    const scrollThrottle: Throttle
    const resizeThrottle: Throttle

    // The `state` object, and the animation-frame callbacks it has queued.
    var scrollY: real
    var ticking: bool
    var navOpen: bool
    var pendingFrames: nat

    // Presentational markers on the DOM.
    var navScrolled: bool
    var linksActive: bool
    var ariaExpanded: string
    var bodyOverflow: string
    var visible: set<ElementId>
    var observed: set<ElementId>
    var sectionStyles: seq<SectionStyle>

    /** The handlers run so far, in order. */
    ghost var log: seq<Handler>

    function Nav(): NavState
      reads this
    {
      NavState(navOpen, linksActive, ariaExpanded, bodyOverflow)
    }

    function Frame(): FrameState
      reads this
    {
      FrameState(scrollY, ticking, pendingFrames)
    }

    /** The invariant every handler keeps: at most one frame pending and
      `ticking` in step with it, the nav's effects in step with `navOpen`,
      one style record per section, observation only of fade and
      transform elements (and none under reduced motion), and two
      separate, coherent throttles. */
    ghost predicate Valid()
      reads this, scrollThrottle, resizeThrottle
    {
      && Coherent(Frame())
      && Consistent(Nav())
      && |sectionStyles| == |sectionHasInner|
      && observed <= Members(fadeElements) + Members(transformElements)
      && (reducedMotion ==> observed == {})
      && scrollThrottle != resizeThrottle
      && scrollThrottle.Valid() && resizeThrottle.Valid()
    }

    /** The layout describes this page's elements. */
    predicate Fits(layout: Layout)
      reads this
    {
      && |layout.fadeTops| == |fadeElements|
      && |layout.transformTops| == |transformElements|
      && |layout.sectionRects| == |sectionHasInner|
    }

    /** The page as it loads, before init runs. */
    constructor (reducedMotion: bool, hasObserver: bool, fadeElements: seq<ElementId>,
                 transformElements: seq<ElementId>, visualItems: seq<ElementId>, sectionHasInner: seq<bool>)
      ensures Valid()
      ensures this.reducedMotion == reducedMotion && this.hasObserver == hasObserver
      ensures this.fadeElements == fadeElements && this.transformElements == transformElements
      ensures this.visualItems == visualItems && this.sectionHasInner == sectionHasInner
      ensures Frame() == INITIAL_FRAME && Nav() == INITIAL_NAV && !navScrolled
      ensures visible == {} && observed == {} && log == []
      ensures sectionStyles == seq(|sectionHasInner|, _ => INITIAL_STYLE)
      ensures fresh(scrollThrottle) && fresh(resizeThrottle)
      ensures scrollThrottle.limit == SCROLL_THROTTLE_MS && !scrollThrottle.inThrottle
      ensures resizeThrottle.limit == RESIZE_THROTTLE_MS && !resizeThrottle.inThrottle
    {
      this.reducedMotion := reducedMotion;
      this.hasObserver := hasObserver;
      this.fadeElements := fadeElements;
      this.transformElements := transformElements;
      this.visualItems := visualItems;
      this.sectionHasInner := sectionHasInner;
      scrollThrottle := new Throttle(SCROLL_THROTTLE_MS);
      resizeThrottle := new Throttle(RESIZE_THROTTLE_MS);
      scrollY, ticking, navOpen, pendingFrames := 0.0, false, false, 0;
      navScrolled, linksActive, ariaExpanded, bodyOverflow := false, false, "false", "";
      visible, observed := {}, {};
      sectionStyles := seq(|sectionHasInner|, _ => INITIAL_STYLE);
      log := [];
    }

    // ===== Navigation =====

    /** handleNavScroll: the `scrolled` class exactly past the threshold. */
    method HandleNavScroll(view: Viewport)
      modifies this`navScrolled, this`log
      ensures navScrolled == IsScrolled(ScrollOffset(view))
      ensures log == old(log) + [NavScroll]
    {
      var y := ScrollOffset(view);
      if y > NAV_SCROLL_THRESHOLD {
        navScrolled := true;
      } else {
        navScrolled := false;
      }
      log := log + [NavScroll];
    }

    /** toggleNav. */
    method ToggleNav()
      modifies this`navOpen, this`linksActive, this`ariaExpanded, this`bodyOverflow
      ensures Nav() == Toggle(old(Nav()))
    {
      navOpen := !navOpen;
      linksActive := !linksActive;
      ariaExpanded := BoolText(navOpen);
      if navOpen {
        bodyOverflow := "hidden";
      } else {
        bodyOverflow := "";
      }
    }

    /** The click listener closeNavOnLinkClick installs on every nav link. */
    method OnLinkClick()
      modifies this`navOpen, this`linksActive, this`ariaExpanded, this`bodyOverflow
      ensures Nav() == CloseOnLinkClick(old(Nav()))
    {
      if navOpen {
        ToggleNav();
      }
    }

    // ===== Reveal markers =====

    /** The forEach shared by the fade and transform handlers: marks every
      element of `targets` whose top is in view. */
    method RevealInView(targets: seq<ElementId>, tops: seq<real>, viewportHeight: real)
      requires |tops| == |targets|
      modifies this`visible
      ensures visible == old(visible) + InViewTargets(targets, tops, viewportHeight)
    {
      var i := 0;
      while i < |targets|
        invariant 0 <= i <= |targets|
        invariant visible == old(visible) + InViewTargets(targets[..i], tops[..i], viewportHeight)
      {
        assert targets[..i + 1][..i] == targets[..i] && tops[..i + 1][..i] == tops[..i];
        if IsInViewport(tops[i], viewportHeight, FADE_IN_OFFSET) {
          visible := visible + {targets[i]};
        }
        i := i + 1;
      }
      assert targets[..i] == targets && tops[..i] == tops;
    }

    /** A forEach that marks every element of `items`. */
    method MarkAll(items: seq<ElementId>)
      modifies this`visible
      ensures visible == old(visible) + Members(items)
    {
      var i := 0;
      while i < |items|
        invariant 0 <= i <= |items|
        invariant visible == old(visible) + Members(items[..i])
      {
        assert items[..i + 1][..i] == items[..i];
        visible := visible + {items[i]};
        i := i + 1;
      }
      assert items[..i] == items;
    }

    /** handleFadeAnimations: nothing under reduced motion. */
    method HandleFadeAnimations(tops: seq<real>, view: Viewport)
      requires |tops| == |fadeElements|
      modifies this`visible, this`log
      ensures visible == if reducedMotion then old(visible)
                         else old(visible) + InViewTargets(fadeElements, tops, ViewportHeight(view))
      ensures log == old(log) + [FadeAnimations]
    {
      log := log + [FadeAnimations];
      if reducedMotion {
        return;
      }
      RevealInView(fadeElements, tops, ViewportHeight(view));
    }

    /** handleTransformAnimations: nothing under reduced motion. */
    method HandleTransformAnimations(tops: seq<real>, view: Viewport)
      requires |tops| == |transformElements|
      modifies this`visible, this`log
      ensures visible == if reducedMotion then old(visible)
                         else old(visible) + InViewTargets(transformElements, tops, ViewportHeight(view))
      ensures log == old(log) + [TransformAnimations]
    {
      log := log + [TransformAnimations];
      if reducedMotion {
        return;
      }
      RevealInView(transformElements, tops, ViewportHeight(view));
    }

    /** handleVisualItems: under reduced motion every item is marked; else,
      when the page has a dark section whose top is in view, every item is. */
    method HandleVisualItems(darkSectionTop: Option<real>, view: Viewport)
      modifies this`visible, this`log
      ensures visible == old(visible) +
        (if reducedMotion
            || (darkSectionTop.Some? && IsInViewport(darkSectionTop.value, ViewportHeight(view), FADE_IN_OFFSET))
         then Members(visualItems) else {})
      ensures log == old(log) + [VisualItems]
    {
      log := log + [VisualItems];
      if reducedMotion {
        MarkAll(visualItems);
        return;
      }
      match darkSectionTop
      case None =>
      case Some(top) =>
        if IsInViewport(top, ViewportHeight(view), FADE_IN_OFFSET) {
          MarkAll(visualItems);
        }
    }

    /** The IntersectionObserver callback: marks and unobserves the target
      of every intersecting entry. */
    method ObserverCallback(entries: seq<Entry>)
      modifies this`visible, this`observed
      ensures visible == old(visible) + Fired(entries)
      ensures observed == old(observed) - Fired(entries)
    {
      var i := 0;
      while i < |entries|
        invariant 0 <= i <= |entries|
        invariant visible == old(visible) + Fired(entries[..i])
        invariant observed == old(observed) - Fired(entries[..i])
      {
        assert entries[..i + 1][..i] == entries[..i];
        if entries[i].isIntersecting {
          visible := visible + {entries[i].target};
          observed := observed - {entries[i].target};
        }
        i := i + 1;
      }
      assert entries[..i] == entries;
    }

    /** observer.observe over a list. */
    method Observe(items: seq<ElementId>)
      modifies this`observed
      ensures observed == old(observed) + Members(items)
    {
      var i := 0;
      while i < |items|
        invariant 0 <= i <= |items|
        invariant observed == old(observed) + Members(items[..i])
      {
        assert items[..i + 1][..i] == items[..i];
        observed := observed + {items[i]};
        i := i + 1;
      }
      assert items[..i] == items;
    }

    // ===== Pinned sections =====

    /** handleScrollPinning: nothing under reduced motion; else every
      section's styles are recomputed from its rectangle. It reads
      `window.innerHeight` and `window.scrollY` without fallbacks. */
    method HandleScrollPinning(rects: seq<Rect>, view: Viewport)
      requires |rects| == |sectionHasInner| && |sectionStyles| == |sectionHasInner|
      modifies this`sectionStyles, this`log
      ensures sectionStyles ==
        if reducedMotion then old(sectionStyles)
        else PinPass(old(sectionStyles), rects, view.scrollY, view.innerHeight, sectionHasInner)
      ensures log == old(log) + [ScrollPinning]
    {
      log := log + [ScrollPinning];
      if reducedMotion {
        return;
      }
      var i := 0;
      while i < |sectionStyles|
        invariant 0 <= i <= |sectionStyles| == |sectionHasInner|
        invariant forall j :: 0 <= j < i ==>
          sectionStyles[j] == PinStep(old(sectionStyles)[j], rects[j], view.scrollY, view.innerHeight, sectionHasInner[j])
        invariant forall j :: i <= j < |sectionStyles| ==> sectionStyles[j] == old(sectionStyles)[j]
        invariant log == old(log) + [ScrollPinning]
      {
        sectionStyles := sectionStyles[i := PinStep(sectionStyles[i], rects[i], view.scrollY, view.innerHeight, sectionHasInner[i])];
        i := i + 1;
      }
    }

    // ===== Frame coordinator =====

    /** onScroll: records the offset and requests a frame only when none is
      pending. */
    method OnScroll(view: Viewport)
      modifies this`scrollY, this`ticking, this`pendingFrames
      ensures Frame() == AfterScroll(old(Frame()), ScrollOffset(view))
    {
      scrollY := ScrollOffset(view);
      if !ticking {
        pendingFrames := pendingFrames + 1;
        ticking := true;
      }
    }

    /** The browser runs the pending animation-frame callback on the
      geometry of that moment. */
    method RunFrame(layout: Layout)
      requires Valid() && Fits(layout) && pendingFrames > 0
      modifies this`pendingFrames, this`ticking, this`navScrolled, this`visible,
               this`sectionStyles, this`log
      ensures Valid()
      ensures Frame() == AfterFrame(old(Frame()))
      ensures log == old(log) + FRAME_ORDER
      ensures navScrolled == IsScrolled(ScrollOffset(layout.view))
      ensures sectionStyles ==
        if reducedMotion then old(sectionStyles)
        else PinPass(old(sectionStyles), layout.sectionRects, layout.view.scrollY,
                     layout.view.innerHeight, sectionHasInner)
      ensures visible == old(visible) + FrameReveals(layout)
    {
      pendingFrames := pendingFrames - 1;
      FrameCallback(layout);
    }

    /** The callback onScroll requests: the five handlers in a fixed order,
      then `ticking` is cleared. */
    method FrameCallback(layout: Layout)
      requires Fits(layout) && |sectionStyles| == |sectionHasInner|
      modifies this`ticking, this`navScrolled, this`visible, this`sectionStyles, this`log
      ensures !ticking
      ensures log == old(log) + FRAME_ORDER
      ensures navScrolled == IsScrolled(ScrollOffset(layout.view))
      ensures sectionStyles ==
        if reducedMotion then old(sectionStyles)
        else PinPass(old(sectionStyles), layout.sectionRects, layout.view.scrollY,
                     layout.view.innerHeight, sectionHasInner)
      ensures visible == old(visible) + FrameReveals(layout)
    {
      HandleNavScroll(layout.view);
      HandleFadeAnimations(layout.fadeTops, layout.view);
      HandleTransformAnimations(layout.transformTops, layout.view);
      HandleScrollPinning(layout.sectionRects, layout.view);
      HandleVisualItems(layout.darkSectionTop, layout.view);
      ticking := false;
    }

    /** The elements one frame marks: the fade and transform elements in
      view (none under reduced motion) and, under reduced motion or with the
      dark section in view, every visual item. */
    function FrameReveals(layout: Layout): set<ElementId>
      requires Fits(layout)
      reads this
    {
      var vh := ViewportHeight(layout.view);
      var animated :=
        if reducedMotion then {}
        else InViewTargets(fadeElements, layout.fadeTops, vh)
             + InViewTargets(transformElements, layout.transformTops, vh);
      var items :=
        if reducedMotion
           || (layout.darkSectionTop.Some? && IsInViewport(layout.darkSectionTop.value, vh, FADE_IN_OFFSET))
        then Members(visualItems) else {};
      animated + items
    }

    // ===== Listeners and init =====

    /** The scroll listener: `throttle(onScroll, 16)`. */
    method ScrollEvent(view: Viewport) returns (forwarded: bool)
      requires Valid()
      modifies this`scrollY, this`ticking, this`pendingFrames, scrollThrottle
      ensures Valid()
      ensures forwarded == !old(scrollThrottle.inThrottle)
      ensures scrollThrottle.inThrottle && scrollThrottle.timers == 1
      ensures Frame() == if forwarded then AfterScroll(old(Frame()), ScrollOffset(view)) else old(Frame())
    {
      forwarded := scrollThrottle.Invoke();
      if forwarded {
        OnScroll(view);
      }
    }

    /** The scroll throttle's reset timer fires and reopens its gate. */
    method ScrollTimerFired()
      requires Valid() && scrollThrottle.inThrottle
      modifies scrollThrottle
      ensures Valid()
      ensures !scrollThrottle.inThrottle && scrollThrottle.timers == 0
    {
      scrollThrottle.TimerFired();
    }

    /** The resize listener: a 250 ms throttle around onScroll followed by
      the rule that closes the mobile nav past the desktop breakpoint. */
    method ResizeEvent(view: Viewport) returns (forwarded: bool)
      requires Valid()
      modifies this`scrollY, this`ticking, this`pendingFrames, resizeThrottle,
               this`navOpen, this`linksActive, this`ariaExpanded, this`bodyOverflow
      ensures Valid()
      ensures forwarded == !old(resizeThrottle.inThrottle)
      ensures resizeThrottle.inThrottle && resizeThrottle.timers == 1
      ensures Frame() == if forwarded then AfterScroll(old(Frame()), ScrollOffset(view)) else old(Frame())
      ensures Nav() == if forwarded then CloseOnResize(old(Nav()), view.innerWidth) else old(Nav())
    {
      forwarded := resizeThrottle.Invoke();
      if forwarded {
        OnScroll(view);
        if view.innerWidth > DESKTOP_BREAKPOINT && navOpen {
          ToggleNav();
        }
        ResizeCloses(old(Nav()), view.innerWidth);
      }
    }

    /** The resize throttle's reset timer fires and reopens its gate. */
    method ResizeTimerFired()
      requires Valid() && resizeThrottle.inThrottle
      modifies resizeThrottle
      ensures Valid()
      ensures !resizeThrottle.inThrottle && resizeThrottle.timers == 0
    {
      resizeThrottle.TimerFired();
    }

    /** init: under reduced motion every fade and transform element is marked
      at once; then onScroll runs once; then, when the browser has
      IntersectionObserver and motion is not reduced, every fade and
      transform element is observed. */
    method Init(view: Viewport)
      requires Valid() && visible == {} && observed == {}
      modifies this`visible, this`observed, this`scrollY, this`ticking, this`pendingFrames
      ensures Valid()
      ensures visible == if reducedMotion then Members(fadeElements) + Members(transformElements) else {}
      ensures observed == if hasObserver && !reducedMotion
                          then Members(fadeElements) + Members(transformElements) else {}
      ensures Frame() == AfterScroll(old(Frame()), ScrollOffset(view))
    {
      if reducedMotion {
        MarkAll(fadeElements);
        MarkAll(transformElements);
      }
      OnScroll(view);
      if hasObserver && !reducedMotion {
        Observe(fadeElements);
        Observe(transformElements);
      }
    }
  }

  /** The page's start-up (script.js:395-400) followed by a burst of scroll
      events: the throttle drops a second event until its timer fires, and
      the one queued frame then runs. */
  method PageLifecycle(view: Viewport, layout: Layout)
    requires |layout.fadeTops| == 2 && |layout.transformTops| == 1 && |layout.sectionRects| == 1
  {
    var p := new Page(false, true, [1, 2], [2], [7], [true]);
    p.Init(view);
    assert p.observed == Members([1, 2]) + Members([2]);
    var first := p.ScrollEvent(view);
    assert first && p.scrollThrottle.inThrottle;
    var second := p.ScrollEvent(view);
    assert !second;
    p.ScrollTimerFired();
    var third := p.ScrollEvent(view);
    assert third && p.pendingFrames == 1;
    p.RunFrame(layout);
    assert !p.ticking && p.pendingFrames == 0;
    assert p.log == FRAME_ORDER;
  }
}
