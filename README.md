# Scroll-driven product page: a verified model of its page script

`script.js` drives a marketing product page. It puts a `scrolled` marker on the
nav bar past a scroll threshold. It opens and closes the mobile menu, and it
gives fade, transform and visual-grid elements a one-way `visible` marker as
they come into view. It pins tall sections with a small parallax offset, and it
coalesces scroll and resize events into at most one animation-frame update.
This project models that logic in Dafny and proves the properties each piece
promises.

- `config.dfy` (`Config`): the configuration constants (threshold 50 px, fade
  offset 100 px, parallax maximum 30 px, breakpoint 768 px, throttle
  intervals 16 ms and 250 ms).
- `geometry.dfy` (`Geometry`): `isInViewport`, `getScrollProgress`, `lerp`,
  the clamp `Math.max(0, Math.min(1, x))` and JavaScript's numeric `||`
  fallback. All of it is over `real`.
- `pinning.dfy` (`Pinning`): the pin decision, the progress and the parallax
  offset that `handleScrollPinning` computes per section. Each section's inline
  styles are a value (`SectionStyle`).
- `navigation.dfy` (`Navigation`): the `scrolled` threshold, `toggleNav`, and
  the link-click and resize close rules, as functions on a `NavState` value.
- `reveal.dfy` (`Reveal`): which elements a forEach pass or an
  IntersectionObserver callback marks `visible`.
- `frames.dfy` (`Frames`): the coordinator's `state.scrollY` / `state.ticking`
  and the queued-frame count, as a value with transition functions. It also
  holds the `throttle` closure, as a class `Throttle`.
- `anchors.dfy` (`Anchors`): the anchor-link click rule.
- `page.dfy` (`ProductPage`): class `Page` holds the `state` object's fields,
  the DOM markers, the element lists queried at load and the two throttles.
  Its methods are the handlers, listeners and `init`. Each method's contract
  ties the new state to the pure functions above, and the lemmas about those
  functions carry the properties.

Elements are opaque handles (`ElementId`). The page's lists (`fadeElements`,
`transformElements`, `visualItems`) are sequences of handles, so an element
that appears in two lists shares one `visible` marker. Geometry is read when
a handler runs, so the model passes it into each method: `Viewport` for the
window, `Layout` for one frame.

What the code computes:

- Pin progress. The code computes `scrolledInSection = scrollY - (rect.top +
  scrollY - innerHeight)`, which is `innerHeight - rect.top`. For a viewport
  of 800 and a section of height 2000, progress at top 0 is 800/1200, an
  offset of 20 px (`Pinning.EntryExample`), not 0. At top -600 it is clamped
  to 1, giving 30 px (`Pinning.ScrolledExample`). Inside the pin window the
  offset is never 0 (`Pinning.PinnedProgressPositive`). A section at most twice
  the viewport's height sits at the full 30 px for its whole pin window
  (`Pinning.ShortSectionSaturates`).
- Short sections. A section no taller than the viewport is never pinned, so
  the `scrollRange > 0` guard never fails (`Pinning.PinnedRangePositive`).
- Frame order and geometry. The frame callback runs nav, fade, transform,
  pinning, then visual items. It reads the window as it is when the frame
  runs, not the `state.scrollY` that `onScroll` recorded. The resize
  breakpoint rule runs in the resize listener right after `onScroll`, not
  inside the frame.
- Reduced motion. `init` marks only fade and transform elements. Visual
  items are marked by `handleVisualItems` on every frame.
- Nav markers. `toggleNav` toggles the `active` class rather than setting it
  from `navOpen`. It rewrites `aria-expanded` and the body overflow on every
  call.
- Unpinning. It sets `position: relative` but leaves `style.top = "0"`
  in place.

## Model

| member | source | states |
|---|---|---|
| Geometry.Clamp01 | script.js:102 | the result lies in [0,1], equals x inside [0,1], 0 below and 1 above |
| Geometry.InViewportBand | script.js:69-75 | in view exactly when -offset <= top <= viewportHeight + offset |
| Geometry.InViewportWidens | script.js:69-75 | a larger offset never takes an element out of view |
| Geometry.ScrollProgress | script.js:83-103 | with viewport > 0 and height >= 0: result in [0,1], 0 when top > windowHeight, 1 when top + height < 0 |
| Geometry.ProgressUnclamped | script.js:99-102 | between the boundary branches the ratio is already in [0,1], so the clamp never bites |
| Geometry.ProgressBoundaries | script.js:89-102 | the middle formula gives 0 at top = windowHeight and 1 at top + height = 0 |
| Geometry.ProgressMonotone | script.js:83-103 | with height and viewport fixed, progress never decreases as the top decreases |
| Geometry.Lerp | script.js:112-114 | factor 0 gives start, factor 1 gives end |
| Geometry.LerpBetween | script.js:112-114 | a factor in [0,1] gives a value between start and end |
| Geometry.LerpInverse | script.js:112-114 | the factor is recovered from the value when start != end |
| Pinning.ScrolledInSection | script.js:203-216 | scrolledInSection equals innerHeight - rect.top: scrollY cancels |
| Pinning.PinnedRangePositive | script.js:209-224 | in the pinned branch scrollRange > 0, so the guard always holds |
| Pinning.PinProgress | script.js:214-220 | the pinned progress lies in [0,1] |
| Pinning.ParallaxOffset | script.js:226 | progress in [0,1] gives an offset in [0,30], 0 at 0 and 30 at 1 |
| Pinning.PinnedStyle | script.js:209-228 | pinned: position sticky, top 0, inner translateY of progress*30 in [0,30]; no inner content: transform untouched |
| Pinning.UnpinnedStyle | script.js:229-236 | not pinned: position relative, top kept, inner transform cleared |
| Pinning.PinIgnoresScroll | script.js:201-227 | pin mode, progress and offset do not depend on scrollY |
| Pinning.PinFromGeometryOnly | script.js:200-237 | position and inner transform come from the current geometry alone, whatever the previous styles |
| Pinning.PinStepIdempotent | script.js:200-237 | two passes with the same geometry leave the same styles as one |
| Pinning.PinnedProgressPositive | script.js:214-220 | with viewport > 0 a pinned section's progress is strictly positive |
| Pinning.ShortSectionSaturates | script.js:214-220 | a pinned section of height <= 2 * viewport has progress exactly 1 |
| Pinning.PinProgressMonotone | script.js:214-220 | within the pin window progress never decreases as the top decreases |
| Pinning.EntryExample | script.js:201-227 | viewport 800, top 0, height 2000: pinned, progress 2/3, offset 20 px, for any scrollY |
| Pinning.ScrolledExample | script.js:201-227 | same section at top -600: progress clamped to 1, offset 30 px |
| Navigation.ScrolledUpwardClosed | script.js:122-130 | once the nav is scrolled at some offset it is scrolled at every larger one |
| Navigation.ScrolledExamples | script.js:122-130 | offsets 0 and 50 are not scrolled, 51 is (threshold 50, strict) |
| Navigation.InitialConsistent | script.js:30 | `navOpen` starts false; with the markup's assumed load markers (no active class, aria "false", no overflow) that state is consistent |
| Navigation.ToggleEffects | script.js:135-146 | toggle flips open and the active class; aria-expanded and overflow follow the new open |
| Navigation.ToggleKeepsConsistent | script.js:135-146 | from a consistent state, active, aria-expanded and overflow still track open |
| Navigation.ToggleKeepsActiveMismatch | script.js:137 | an active class out of step with open stays out of step (it is toggled, not set) |
| Navigation.ToggleTwice | script.js:135-146 | toggling twice restores a consistent state |
| Navigation.LinkClickCloses | script.js:151-160 | a link click leaves the menu closed, never opens it, is a no-op when closed, keeps consistency |
| Navigation.ResizeCloses | script.js:341-343 | resize leaves it open exactly when it was open and width <= 768; otherwise no-op; keeps consistency |
| Reveal.InViewTargetsSpec | script.js:171-175 | a pass marks exactly the listed elements with some occurrence whose top is in view (offset 100) |
| Reveal.InViewTargetsFromList | script.js:185-189 | a pass marks only elements of its own list |
| Reveal.MembersSpec | script.js:254-256 | marking a list marks exactly its elements |
| Reveal.FiredSpec | script.js:374-381 | the callback fires for exactly the targets of intersecting entries |
| Reveal.FiresOnce | script.js:376-380 | a later callback, given entries only for elements still observed after the first, fires only for those elements and for none of the first's targets |
| Frames.InitialCoherent | script.js:26-31 | the initial state (not ticking, nothing queued) is coherent |
| Frames.ScrollSchedulesOnce | script.js:285-302 | onScroll records scrollY, queues a frame only when not ticking, and leaves ticking with exactly one pending |
| Frames.FrameReturnsToIdle | script.js:290-298 | the callback leaves the coordinator idle with nothing pending |
| Frames.BurstSchedulesOne | script.js:285-302 | any non-empty run of events before a frame leaves exactly one pending and scrollY = the last event's |
| Frames.Throttle.constructor | script.js:50-51 | a fresh throttle is open with no timer |
| Frames.Throttle.Invoke | script.js:52-60 | a call is forwarded exactly when the gate was open; afterwards it is closed with one timer |
| Frames.Throttle.TimerFired | script.js:58 | the timer reopens the gate |
| Anchors.AnchorClick | script.js:349-362 | scrolls exactly when href is not "#"/"#!" and a target exists, to offsetTop - navHeight (0 without nav), smooth unless reduced motion |
| Anchors.TargetAboveElement | script.js:357-358 | a nav of non-negative height never puts the scroll target below the element's top |
| ProductPage.Page.constructor | script.js:25-42 | the page at load: state idle, nav closed and consistent, nothing visible or observed, sections unstyled, two fresh open throttles |
| ProductPage.Page.HandleNavScroll | script.js:122-130 | the nav has `scrolled` exactly when scrollY (falling back to pageYOffset when 0) > 50 |
| ProductPage.Page.ToggleNav | script.js:135-146 | the nav's state becomes Toggle of the old state |
| ProductPage.Page.OnLinkClick | script.js:151-160 | the nav's state becomes CloseOnLinkClick of the old state |
| ProductPage.Page.RevealInView | script.js:171-175 | adds exactly the in-view targets to the visible set |
| ProductPage.Page.MarkAll | script.js:246 | adds exactly the list's elements to the visible set |
| ProductPage.Page.HandleFadeAnimations | script.js:168-176 | no change under reduced motion; else adds the in-view fade elements |
| ProductPage.Page.HandleTransformAnimations | script.js:182-190 | no change under reduced motion; else adds the in-view transform elements |
| ProductPage.Page.HandleVisualItems | script.js:244-258 | adds every visual item under reduced motion, or when a dark section exists and is in view; else nothing |
| ProductPage.Page.ObserverCallback | script.js:374-382 | adds the fired targets to the visible set and removes them from the observed set |
| ProductPage.Page.Observe | script.js:385-386 | adds the list's elements to the observed set |
| ProductPage.Page.HandleScrollPinning | script.js:197-238 | no change under reduced motion; else every section's styles become PinStep of its rectangle |
| ProductPage.Page.OnScroll | script.js:285-302 | the coordinator becomes AfterScroll of the old state with the current offset |
| ProductPage.Page.FrameCallback | script.js:290-298 | runs nav, fade, transform, pinning, visual items in that order, then clears ticking |
| ProductPage.Page.RunFrame | script.js:290-298 | a pending frame runs once: the invariant holds, nothing is pending after, and all handler effects are applied |
| ProductPage.Page.ScrollEvent | script.js:328-330 | onScroll runs exactly when the 16 ms throttle is open; afterwards its gate is closed with one timer running |
| ProductPage.Page.ScrollTimerFired | script.js:58 | the scroll throttle's timer reopens its gate; nothing else changes |
| ProductPage.Page.ResizeEvent | script.js:336-346 | when the 250 ms throttle is open, onScroll runs and then the resize close rule; afterwards its gate is closed with one timer running |
| ProductPage.Page.ResizeTimerFired | script.js:58 | the resize throttle's timer reopens its gate; nothing else changes |
| ProductPage.Page.Init | script.js:309-390 | under reduced motion all fade and transform elements become visible; onScroll runs; with an observer and no reduced motion all of them are observed |

## Left out

- DOM queries, listener registration and `console.log` are left out. The
  element lists, the presence of a `.scroll-section-inner` child and of a
  `.dark-section`, and the reduced-motion preference are constructor or
  method inputs.
- `smoothScrollTo` and `window.scrollTo` (script.js:266-277) are browser
  effects. `Anchors.AnchorClick` returns the target and the scroll mode
  instead of scrolling.
- Real timing is left out: setTimeout's interval, requestAnimationFrame's
  frame timing, and the IntersectionObserver's thresholds and root margin.
  The throttle's timer is an explicit event (`Throttle.TimerFired`). The
  browser running a queued frame is `Page.RunFrame`. The observer's decision
  is the `isIntersecting` of its entries.
- Frames.Throttle.Invoke: the interval `limit` is recorded but not enforced,
  because time is not modelled.
- Floating point is left out: all geometry is exact `real` arithmetic. The
  NaN that `getScrollProgress` gives when the viewport and element heights
  sum to 0 is excluded by requiring a positive viewport and a non-negative
  height.
- JavaScript's `||` falls back on every falsy value. `undefined` and `NaN`
  cannot occur over `real`, so only the 0 case is modelled.
- `state.lastScrollY` and `config.scrollSmoothness` are declared but never
  used by the code, so no behaviour depends on them.
- A missing `.nav` or `.nav-links` makes the script throw. The model assumes
  both exist, and they appear only as fields of `Page`.
- `window.productPageUtils` (script.js:403-408) exposes `getScrollProgress`,
  `isInViewport` and the mutable `state` and `config` objects. Writes through
  them from outside the script are not modelled. Such a write could break the
  `Coherent` and `Consistent` invariants that `Page.Valid` keeps.
- The load-time markers come from the page's HTML, which the script does not
  write at load; script.js:30 sets only `navOpen: false`. The model assumes
  the markup loads `.nav-links` without `active`, the toggle with
  `aria-expanded="false"`, and the nav without `scrolled` (`INITIAL_NAV` and
  `Page.constructor`). With other markup, for example no `aria-expanded`
  attribute at all, the nav state is not `Consistent` until the first
  toggle.
- CSS and visual output are left out.
