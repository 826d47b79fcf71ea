/** The click handler of in-page anchor links (`a[href^="#"]`). */
module Anchors {
  import opened Options

  /** What a click does: leave the browser's default behaviour, or prevent
      it and scroll to `top` (instantly under reduced motion, else smoothly). */
  datatype AnchorAction = BrowserDefault | ScrollTo(top: real, smooth: bool)

  /** `href` is the link's attribute, `targetTop` the `offsetTop` of the
      element `document.querySelector(href)` finds (None when it finds none),
      and `navHeight` the nav's `offsetHeight` (None when there is no nav). */
  function AnchorClick(href: string, targetTop: Option<real>, navHeight: Option<real>, reducedMotion: bool): (r: AnchorAction)
    ensures r.ScrollTo? <==> href != "#" && href != "#!" && targetTop.Some?
    ensures r.ScrollTo? && navHeight.None? ==> r.top == targetTop.value
    ensures r.ScrollTo? && navHeight.Some? ==> r.top + navHeight.value == targetTop.value
    ensures r.ScrollTo? ==> r.smooth == !reducedMotion
  {
    if href == "#" || href == "#!" then BrowserDefault
    else match targetTop
      case None => BrowserDefault
      case Some(offsetTop) =>
        var navOffset := match navHeight case Some(h) => h case None => 0.0;
        ScrollTo(offsetTop - navOffset, !reducedMotion)
  }

  /** A nav of non-negative height never moves the scroll target below the
      target element's own top. */
  lemma TargetAboveElement(href: string, targetTop: Option<real>, navHeight: Option<real>, reducedMotion: bool)
    requires navHeight.Some? ==> navHeight.value >= 0.0
    requires AnchorClick(href, targetTop, navHeight, reducedMotion).ScrollTo?
    ensures AnchorClick(href, targetTop, navHeight, reducedMotion).top <= targetTop.value
  {
  }
}
