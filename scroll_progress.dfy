/**
 * The reading-progress bar of src/components/ScrollProgress.tsx. Scroll events
 * request at most one animation frame at a time; the frame callback scales the bar
 * horizontally by how far the page has been scrolled.
 */
module ScrollProgress {
  import opened Options

  /**
   * The bar's horizontal scale: `scrollY / total` when the scrollable height
   * `total = scrollHeight - innerHeight` is positive, 0 otherwise.
   */
  function Ratio(scrollY: real, scrollHeight: real, innerHeight: real): (r: real)
    ensures scrollHeight - innerHeight > 0.0 ==> r * (scrollHeight - innerHeight) == scrollY
    ensures scrollHeight - innerHeight <= 0.0 ==> r == 0.0
  {
    var total := scrollHeight - innerHeight;
    if total > 0.0 then scrollY / total else 0.0
  }

  /** Within the scrollable range the scale lies between 0 and 1, reaching 1 at the bottom. */
  lemma RatioInUnitInterval(scrollY: real, scrollHeight: real, innerHeight: real)
    requires 0.0 <= scrollY <= scrollHeight - innerHeight
    ensures 0.0 <= Ratio(scrollY, scrollHeight, innerHeight) <= 1.0
    ensures scrollHeight - innerHeight > 0.0 && scrollY == scrollHeight - innerHeight ==>
      Ratio(scrollY, scrollHeight, innerHeight) == 1.0
  {
    var total := scrollHeight - innerHeight;
    if total > 0.0 {
      FactorBounds(Ratio(scrollY, scrollHeight, innerHeight), total, scrollY);
    }
  }

  /** Bounds on a factor `a` read off its product `p` with a positive `b`, where `0 <= p <= b`. */
  lemma FactorBounds(a: real, b: real, p: real)
    requires b > 0.0 && a * b == p && 0.0 <= p <= b
    ensures 0.0 <= a <= 1.0
    ensures p == b ==> a == 1.0
  {
    if a < 1.0 {
      assert a * b < 1.0 * b;
    }
  }

  /**
   * The effect's `rafId` and the bar element, together with the animation frames
   * the browser holds for this component (`frames`, so that teardown can be seen to
   * leave none behind).
   */
  class ProgressBar {
    var rafId: Option<nat>
    var scale: real
    var barAttached: bool
    var listening: bool
    var frames: set<nat>
    var nextFrameId: nat

    /** At most one frame is pending, and while listening `rafId` names exactly the pending one. */
    ghost predicate Valid()
      reads this
    {
      (frames == {} || (rafId.Some? && frames == {rafId.value})) &&
      (listening ==> (rafId.Some? <==> frames != {})) &&
      (!listening ==> frames == {}) &&
      (forall f :: f in frames ==> f < nextFrameId)
    }

    /** First render: the bar at `scaleX(0)`, nothing scheduled. */
    constructor ()
      ensures Valid()
      ensures scale == 0.0 && rafId == None && frames == {} && !listening && !barAttached
    {
      rafId := None;
      scale := 0.0;
      barAttached := false;
      listening := false;
      frames := {};
      nextFrameId := 1;
    }

    /** The bar is in the page and the effect adds the scroll listener. */
    method Mount()
      requires Valid() && !listening
      modifies this
      ensures Valid() && listening && barAttached
      ensures rafId == None && frames == {} && scale == old(scale)
    {
      barAttached := true;
      listening := true;
      rafId := None;
    }

    /**
     * A scroll event. While listening, `onScroll` does nothing if a frame is pending
     * and otherwise requests one with an id the browser has not used before.
     */
    method OnScroll()
      requires Valid()
      modifies this
      ensures Valid() && listening == old(listening) && scale == old(scale) && barAttached == old(barAttached)
      ensures !listening || old(rafId).Some? ==> rafId == old(rafId) && frames == old(frames)
      ensures listening && old(rafId).None? ==> rafId.Some? && rafId.value >= old(nextFrameId) && frames == {rafId.value}
      ensures listening ==> |frames| == 1
    {
      if !listening || rafId.Some? {
        return;
      }
      var id := nextFrameId;
      nextFrameId := nextFrameId + 1;
      frames := {id};
      rafId := Some(id);
    }

    /**
     * `update`, run by the browser for a pending frame: it clears `rafId` first, then
     * scales the bar if the bar is still attached.
     */
    method RunFrame(id: nat, scrollY: real, scrollHeight: real, innerHeight: real)
      requires Valid() && id in frames
      modifies this
      ensures Valid() && frames == {} && rafId == None && listening == old(listening)
      ensures barAttached == old(barAttached) && nextFrameId == old(nextFrameId)
      ensures scale == if old(barAttached) then Ratio(scrollY, scrollHeight, innerHeight) else old(scale)
    {
      frames := frames - {id};
      rafId := None;
      if !barAttached {
        return;
      }
      scale := Ratio(scrollY, scrollHeight, innerHeight);
    }

    /** Teardown: removes the listener and cancels the pending frame, if any; no callback is left. */
    method Unmount()
      requires Valid()
      modifies this
      ensures Valid() && !listening && frames == {} && !barAttached
      ensures rafId == old(rafId) && scale == old(scale)
    {
      listening := false;
      if rafId.Some? {
        frames := frames - {rafId.value};
      }
      barAttached := false;
    }
  }
}
