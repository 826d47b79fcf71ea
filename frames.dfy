/** The frame coordinator (onScroll with `state.ticking` and one
    requestAnimationFrame slot) and the `throttle` wrapper. */
module Frames {

  /** `state.scrollY`, `state.ticking`, and how many frame callbacks are
      waiting in the browser's animation-frame queue. */
  datatype FrameState = FrameState(scrollY: real, ticking: bool, pending: nat)

  const INITIAL_FRAME := FrameState(0.0, false, 0)

  /** `ticking` is set exactly while one callback is pending. */
  predicate Coherent(f: FrameState)
  {
    f.pending == if f.ticking then 1 else 0
  }

  /** onScroll: records the offset and schedules a frame only when idle. */
  function AfterScroll(f: FrameState, scrollY: real): FrameState
  {
    if f.ticking then FrameState(scrollY, true, f.pending)
    else FrameState(scrollY, true, f.pending + 1)
  }

  /** The frame callback has run: it is no longer queued and `ticking` is
      cleared. */
  function AfterFrame(f: FrameState): FrameState
    requires f.pending > 0
  {
    FrameState(f.scrollY, false, f.pending - 1)
  }

  /** A run of scroll events with no frame in between. */
  function AfterScrolls(f: FrameState, events: seq<real>): FrameState
  {
    if events == [] then f
    else AfterScroll(AfterScrolls(f, events[..|events| - 1]), events[|events| - 1])
  }

  lemma InitialCoherent()
    ensures Coherent(INITIAL_FRAME)
  {
  }

  /** One event: the offset is recorded, a frame is requested exactly when
      none was pending, and afterwards exactly one is pending. */
  lemma ScrollSchedulesOnce(f: FrameState, scrollY: real)
    requires Coherent(f)
    ensures AfterScroll(f, scrollY).scrollY == scrollY
    ensures AfterScroll(f, scrollY).pending == f.pending + (if f.ticking then 0 else 1)
    ensures AfterScroll(f, scrollY).ticking && AfterScroll(f, scrollY).pending == 1
    ensures Coherent(AfterScroll(f, scrollY))
  {
  }

  /** Running the callback returns a coherent coordinator to idle. */
  lemma FrameReturnsToIdle(f: FrameState)
    requires Coherent(f) && f.pending > 0
    ensures Coherent(AfterFrame(f))
    ensures !AfterFrame(f).ticking && AfterFrame(f).pending == 0
  {
  }

  /** However many events arrive before the next frame, exactly one callback
      is pending and `state.scrollY` holds the last event's offset. */
  lemma {:induction false} BurstSchedulesOne(f: FrameState, events: seq<real>)
    requires Coherent(f) && events != []
    ensures AfterScrolls(f, events) == FrameState(events[|events| - 1], true, 1)
  {
    var n := |events| - 1;
    if n > 0 {
      BurstSchedulesOne(f, events[..n]);
    }
  }

  /** The closure that `throttle(func, limit)` returns: `inThrottle` plus the
      reset timers it has started and that have not fired yet. */
  class Throttle {
    const limit: nat
    var inThrottle: bool
    var timers: nat

    /** Exactly one reset timer is running while the gate is closed. */
    ghost predicate Valid()
      reads this
    {
      timers == if inThrottle then 1 else 0
    }

    constructor (limit: nat)
      ensures Valid() && this.limit == limit
      ensures !inThrottle && timers == 0
    {
      this.limit := limit;
      inThrottle := false;
      timers := 0;
    }

    /** A call of the wrapper: forwarded to `func` only when the gate is
      open, which closes it and starts the reset timer. */
    method Invoke() returns (forwarded: bool)
      requires Valid()
      modifies this
      ensures Valid()
      ensures forwarded == !old(inThrottle)
      ensures inThrottle && timers == 1
    {
      forwarded := !inThrottle;
      if forwarded {
        inThrottle := true;
        timers := timers + 1;
      }
    }

    /** The reset timer fires after `limit` ms and opens the gate. */
    method TimerFired()
      requires Valid() && timers > 0
      modifies this
      ensures Valid()
      ensures !inThrottle && timers == 0
    {
      inThrottle := false;
      timers := timers - 1;
    }
  }
}
