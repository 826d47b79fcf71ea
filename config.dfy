/** The page script's fixed configuration (script.js:17-23) and the other
    constants its handlers use literally. */
module Config {
  /** Pixels scrolled before the nav gets its `scrolled` class. */
  const NAV_SCROLL_THRESHOLD: real := 50.0
  /** Pixels around the viewport within which an element counts as in view. */
  const FADE_IN_OFFSET: real := 100.0
  /** Declared in the configuration; no handler reads it. */
  const SCROLL_SMOOTHNESS: real := 0.1
  /** The largest parallax offset, in px, applied to a pinned section's inner content. */
  const PARALLAX_MAX: real := 30.0
  /** Widths above this close the mobile nav on resize. */
  const DESKTOP_BREAKPOINT: real := 768.0
  /** Minimum intervals, in ms, of the scroll and resize throttles. */
  const SCROLL_THROTTLE_MS: nat := 16
  const RESIZE_THROTTLE_MS: nat := 250
}
