/** The navigation chrome: the `scrolled` marker on the nav bar and the
    mobile menu's open/closed state with the three DOM effects that follow it. */
module Navigation {
  import opened Config

  /** handleNavScroll: the nav carries `scrolled` exactly past the threshold. */
  predicate IsScrolled(scrollY: real)
  {
    scrollY > NAV_SCROLL_THRESHOLD
  }

  /** The marker switches on once past the threshold and stays on further
      down: it is upward-closed in the scroll offset. */
  lemma ScrolledUpwardClosed(a: real, b: real)
    requires a <= b && IsScrolled(a)
    ensures IsScrolled(b)
  {
  }

  /** At scroll 0 the nav is plain; at 51 it is scrolled; at exactly 50 it
      is still plain (the comparison is strict). */
  lemma ScrolledExamples()
    ensures !IsScrolled(0.0) && !IsScrolled(50.0) && IsScrolled(51.0)
  {
  }

  /** `Boolean.prototype.toString`. */
  function BoolText(b: bool): string
  {
    if b then "true" else "false"
  }

  /** `document.body.style.overflow` for an open or a closed menu. */
  function OverflowFor(open: bool): string
  {
    if open then "hidden" else ""
  }

  /** `state.navOpen`, whether `.nav-links` has class `active`, the toggle's
      `aria-expanded` attribute and the body's `overflow` style. */
  datatype NavState = NavState(open: bool, linksActive: bool, ariaExpanded: string, bodyOverflow: string)

  /** The page as it loads: closed, no `active` class, `aria-expanded="false"`,
      no body overflow style. */
  const INITIAL_NAV := NavState(false, false, "false", "")

  /** The three DOM effects agree with `open`. */
  predicate Consistent(s: NavState)
  {
    && s.linksActive == s.open
    && s.ariaExpanded == BoolText(s.open)
    && s.bodyOverflow == OverflowFor(s.open)
  }

  /** toggleNav: flips `open`, TOGGLES the `active` class (it does not set it
      from `open`), and sets the attribute and overflow from the new `open`. */
  function Toggle(s: NavState): NavState
  {
    var open := !s.open;
    NavState(open, !s.linksActive, BoolText(open), OverflowFor(open))
  }

  lemma InitialConsistent()
    ensures Consistent(INITIAL_NAV)
  {
  }

  /** Toggling flips `open`; `aria-expanded` and the overflow lock follow the
      new value whatever the state was before. */
  lemma ToggleEffects(s: NavState)
    ensures Toggle(s).open == !s.open
    ensures Toggle(s).linksActive == !s.linksActive
    ensures Toggle(s).ariaExpanded == (if Toggle(s).open then "true" else "false")
    ensures (Toggle(s).bodyOverflow == "hidden") == Toggle(s).open
  {
  }

  /** From a consistent state toggling keeps all three effects in step. */
  lemma ToggleKeepsConsistent(s: NavState)
    requires Consistent(s)
    ensures Consistent(Toggle(s))
  {
  }

  /** Because `active` is flipped rather than set, a state whose class
      disagrees with `open` keeps disagreeing after a toggle. */
  lemma ToggleKeepsActiveMismatch(s: NavState)
    requires s.linksActive != s.open
    ensures Toggle(s).linksActive != Toggle(s).open
  {
  }

  /** Toggling twice restores a consistent state. */
  lemma ToggleTwice(s: NavState)
    requires Consistent(s)
    ensures Toggle(Toggle(s)) == s
  {
  }

  /** The nav-link click handler: `if (state.navOpen) toggleNav()`. */
  function CloseOnLinkClick(s: NavState): NavState
  {
    if s.open then Toggle(s) else s
  }

  /** The resize rule: `if (innerWidth > 768 && state.navOpen) toggleNav()`. */
  function CloseOnResize(s: NavState, innerWidth: real): NavState
  {
    if innerWidth > DESKTOP_BREAKPOINT && s.open then Toggle(s) else s
  }

  /** A link click leaves the menu closed, never opens it, changes nothing
      when it was closed, and keeps a consistent state consistent. */
  lemma LinkClickCloses(s: NavState)
    ensures !CloseOnLinkClick(s).open
    ensures !s.open ==> CloseOnLinkClick(s) == s
    ensures Consistent(s) ==> Consistent(CloseOnLinkClick(s))
    ensures Consistent(s) ==> CloseOnLinkClick(s) == INITIAL_NAV
  {
  }

  /** A resize closes the menu exactly when it is open and the width is past
      the breakpoint, never opens it, and keeps a consistent state consistent. */
  lemma ResizeCloses(s: NavState, innerWidth: real)
    ensures CloseOnResize(s, innerWidth).open == (s.open && innerWidth <= DESKTOP_BREAKPOINT)
    ensures !(s.open && innerWidth > DESKTOP_BREAKPOINT) ==> CloseOnResize(s, innerWidth) == s
    ensures Consistent(s) ==> Consistent(CloseOnResize(s, innerWidth))
  {
  }
}
