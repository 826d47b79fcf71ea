/** The reveal markers: which elements a forEach pass or an
    IntersectionObserver callback gives the `visible` class. Every pass
    only ever adds elements to the set of visible ones. */
module Reveal {
  import opened Config
  import opened Geometry

  /** An opaque handle on a DOM element; the same element may appear in
      several of the page's element lists. */
  type ElementId = nat

  /** The elements of `targets` whose top edge (the matching entry of
      `tops`) is within FADE_IN_OFFSET of the viewport: the ones a pass of
      handleFadeAnimations or handleTransformAnimations marks. */
  function InViewTargets(targets: seq<ElementId>, tops: seq<real>, viewportHeight: real): set<ElementId>
    requires |tops| == |targets|
  {
    if targets == [] then {}
    else
      var n := |targets| - 1;
      InViewTargets(targets[..n], tops[..n], viewportHeight)
        + (if IsInViewport(tops[n], viewportHeight, FADE_IN_OFFSET) then {targets[n]} else {})
  }

  /** An element is marked exactly when some occurrence of it in the list
      has its top in view. */
  lemma {:induction false} InViewTargetsSpec(targets: seq<ElementId>, tops: seq<real>, viewportHeight: real, e: ElementId)
    requires |tops| == |targets|
    ensures e in InViewTargets(targets, tops, viewportHeight)
        <==> exists k :: 0 <= k < |targets| && targets[k] == e
                         && IsInViewport(tops[k], viewportHeight, FADE_IN_OFFSET)
  {
    if targets != [] {
      var n := |targets| - 1;
      InViewTargetsSpec(targets[..n], tops[..n], viewportHeight, e);
      if e in InViewTargets(targets[..n], tops[..n], viewportHeight) {
        var k :| 0 <= k < n && targets[..n][k] == e
                 && IsInViewport(tops[..n][k], viewportHeight, FADE_IN_OFFSET);
        assert targets[k] == e && IsInViewport(tops[k], viewportHeight, FADE_IN_OFFSET);
      }
      if exists k :: 0 <= k < |targets| && targets[k] == e
                     && IsInViewport(tops[k], viewportHeight, FADE_IN_OFFSET) {
        var k :| 0 <= k < |targets| && targets[k] == e
                 && IsInViewport(tops[k], viewportHeight, FADE_IN_OFFSET);
        if k < n {
          assert targets[..n][k] == e && IsInViewport(tops[..n][k], viewportHeight, FADE_IN_OFFSET);
        }
      }
    }
  }

  /** The marked elements are all from the list. */
  lemma InViewTargetsFromList(targets: seq<ElementId>, tops: seq<real>, viewportHeight: real, e: ElementId)
    requires |tops| == |targets|
    requires e in InViewTargets(targets, tops, viewportHeight)
    ensures e in targets
  {
    InViewTargetsSpec(targets, tops, viewportHeight, e);
  }

  /** The elements of a list: the ones handleVisualItems and init mark all at once. */
  function Members(items: seq<ElementId>): set<ElementId>
  {
    if items == [] then {} else Members(items[..|items| - 1]) + {items[|items| - 1]}
  }

  lemma {:induction false} MembersSpec(items: seq<ElementId>, e: ElementId)
    ensures e in Members(items) <==> e in items
  {
    if items != [] {
      var n := |items| - 1;
      MembersSpec(items[..n], e);
      assert items == items[..n] + [items[n]];
    }
  }

  /** One entry handed to the IntersectionObserver callback. */
  datatype Entry = Entry(target: ElementId, isIntersecting: bool)

  /** The targets of the intersecting entries: the ones the callback marks
      `visible` and unobserves. */
  function Fired(entries: seq<Entry>): set<ElementId>
  {
    if entries == [] then {}
    else
      var n := |entries| - 1;
      Fired(entries[..n]) + (if entries[n].isIntersecting then {entries[n].target} else {})
  }

  lemma {:induction false} FiredSpec(entries: seq<Entry>, e: ElementId)
    ensures e in Fired(entries)
        <==> exists k :: 0 <= k < |entries| && entries[k].target == e && entries[k].isIntersecting
  {
    if entries != [] {
      var n := |entries| - 1;
      FiredSpec(entries[..n], e);
      if e in Fired(entries[..n]) {
        var k :| 0 <= k < n && entries[..n][k].target == e && entries[..n][k].isIntersecting;
        assert entries[k] == entries[..n][k];
      }
      if exists k :: 0 <= k < |entries| && entries[k].target == e && entries[k].isIntersecting {
        var k :| 0 <= k < |entries| && entries[k].target == e && entries[k].isIntersecting;
        if k < n {
          assert entries[..n][k] == entries[k];
        }
      }
    }
  }

  /** The observer fires at most once per element: the callback unobserves
      every target it fires for, so a later callback, which only receives
      entries for elements still observed, cannot fire for them again. */
  lemma FiresOnce(observed: set<ElementId>, first: seq<Entry>, later: seq<Entry>)
    requires forall k :: 0 <= k < |later| ==> later[k].target in observed - Fired(first)
    ensures Fired(later) <= observed - Fired(first)
    ensures Fired(first) !! Fired(later)
  {
    forall e | e in Fired(later)
      ensures e in observed - Fired(first)
    {
      FiredSpec(later, e);
    }
  }
}
