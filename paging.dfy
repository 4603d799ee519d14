/**
 * Section paging: wheel, touch and keyboard input jump the page one
 * section at a time, and further jumps are ignored until a 30 ms watcher
 * sees the scroll position settle within 2 px of the target section.
 * Navigation-link clicks jump straight to a section, without that guard.
 *
 * The smooth `window.scrollTo` is recorded as a log of requested offsets;
 * the interval timer itself is a flag plus the callback as a method.
 */
module Paging {
  import ScrollKeyframes
  import RealMath

  /** Minimum vertical swipe (px) that counts as a page gesture. */
  const SwipeThreshold: real := 40.0

  /** Distance (px) under which the scroll counts as arrived. */
  const SettleEpsilon: real := 2.0

  /** `Math.max(0, Math.min(n - 1, i))`: i pulled into the section range. */
  function ClampIndex(i: int, n: nat): (r: int)
    requires n >= 1
    ensures 0 <= r < n
    ensures 0 <= i < n ==> r == i
    ensures i < 0 ==> r == 0
    ensures i >= n ==> r == n - 1
  {
    if i > n - 1 then n - 1 else if i < 0 then 0 else i
  }

  /** A page step moves the target at most one section from where it was. */
  lemma StepMovesOneSection(current: int, step: int, n: nat)
    requires n >= 1 && 0 <= current < n
    requires -1 <= step <= 1
    ensures -1 <= ClampIndex(current + step, n) - current <= 1
    ensures step == 1 && current < n - 1 ==> ClampIndex(current + step, n) == current + 1
    ensures step == -1 && current > 0 ==> ClampIndex(current + step, n) == current - 1
  {
  }

  /** `Math.sign(e.deltaY)`: +1 pages down, -1 pages up, 0 does not move. */
  function WheelStep(deltaY: real): (step: int)
    ensures step == 1 <==> deltaY > 0.0
    ensures step == -1 <==> deltaY < 0.0
    ensures step == 0 <==> deltaY == 0.0
  {
    if deltaY > 0.0 then 1 else if deltaY < 0.0 then -1 else 0
  }

  /** A touch that moved less than 40 px is no gesture; up pages down, down pages up. */
  function SwipeStep(dy: real): (step: int)
    ensures step == 0 <==> -SwipeThreshold < dy < SwipeThreshold
    ensures step == 1 <==> dy <= -SwipeThreshold
    ensures step == -1 <==> dy >= SwipeThreshold
  {
    if RealMath.Abs(dy) < SwipeThreshold then 0 else if dy < 0.0 then 1 else -1
  }

  /** ArrowDown, PageDown and Space page down; ArrowUp and PageUp page up. */
  function KeyStep(key: string): (step: int)
    ensures step == 1 <==> key in ["ArrowDown", "PageDown", " "]
    ensures step == -1 <==> key in ["ArrowUp", "PageUp"]
    ensures step == 0 <==> key !in ["ArrowDown", "PageDown", " ", "ArrowUp", "PageUp"]
  {
    if key in ["ArrowDown", "PageDown", " "] then 1
    else if key in ["ArrowUp", "PageUp"] then -1
    else 0
  }

  /** The watcher's arrival test. */
  predicate Settled(scrollY: real, top: real)
  {
    RealMath.Abs(scrollY - top) < SettleEpsilon
  }

  /** `sections.findIndex(s => "#" + s.id === href)`: the first section the link names, or -1. */
  function SectionForHref(ids: seq<string>, href: string): (k: int)
    ensures -1 <= k < |ids|
    ensures k == -1 <==> forall j :: 0 <= j < |ids| ==> "#" + ids[j] != href
    ensures k >= 0 ==> "#" + ids[k] == href && forall j :: 0 <= j < k ==> "#" + ids[j] != href
  {
    if |ids| == 0 then -1
    else if "#" + ids[0] == href then 0
    else
      var k := SectionForHref(ids[1..], href);
      if k == -1 then -1 else k + 1
  }

  /** The paging state of the page. */
  class Pager {
    /** The sections' element ids, in keyframe order. */
    const ids: seq<string>
    /** `sectionTops`: each section's absolute page offset. */
    var tops: seq<real>
    var currentIndex: int
    var targetIndex: int
    var isPaging: bool
    /** The settle interval is running (`settleCheckId` is set). */
    var settleWatching: bool
    var touchStartY: real
    /** Every `window.scrollTo` target requested, oldest first. */
    var scrollRequests: seq<real>

    /** One top per section, and both indices name a section. */
    ghost predicate Valid()
      reads this
    {
      && |ids| >= 1 && |tops| == |ids|
      && 0 <= currentIndex < |ids|
      && 0 <= targetIndex < |ids|
    }

    /** Page start-up: tops measured, current section the closest one to the scroll offset. */
    constructor (ids: seq<string>, tops: seq<real>, scrollY: real)
      requires |ids| >= 1 && |tops| == |ids|
      ensures Valid()
      ensures this.ids == ids && this.tops == tops
      ensures currentIndex == ScrollKeyframes.ClosestIn(tops, scrollY, |tops|)
      ensures targetIndex == 0 && !isPaging && !settleWatching
      ensures touchStartY == 0.0 && scrollRequests == []
    {
      this.ids := ids;
      this.tops := tops;
      targetIndex := 0;
      isPaging := false;
      settleWatching := false;
      touchStartY := 0.0;
      scrollRequests := [];
      new;
      var closest := ScrollKeyframes.ClosestSectionIndex(tops, scrollY);
      currentIndex := closest;
    }

    /** `scrollToIndex`: clamp, start paging, and ask for a smooth scroll to that top. */
    method ScrollToIndex(i: int)
      requires Valid()
      modifies this
      ensures Valid()
      ensures targetIndex == ClampIndex(i, |ids|) && isPaging
      ensures scrollRequests == old(scrollRequests) + [tops[targetIndex]]
      ensures tops == old(tops) && currentIndex == old(currentIndex)
      ensures settleWatching == old(settleWatching) && touchStartY == old(touchStartY)
    {
      var k := ClampIndex(i, |ids|);
      isPaging, targetIndex := true, k;
      scrollRequests := scrollRequests + [tops[k]];
    }

    /** `startSettleWatcher`: start the interval unless it is already running. */
    method StartSettleWatcher()
      requires Valid()
      modifies this
      ensures Valid()
      ensures settleWatching
      ensures tops == old(tops) && currentIndex == old(currentIndex) && targetIndex == old(targetIndex)
      ensures isPaging == old(isPaging) && touchStartY == old(touchStartY)
      ensures scrollRequests == old(scrollRequests)
    {
      if settleWatching {
        return;
      }
      settleWatching := true;
    }

    /**
     * One run of the settle interval: once the scroll is within 2 px of the
     * target's top, paging ends, the target becomes current and the
     * interval stops; otherwise nothing changes.
     */
    method SettleTick(scrollY: real)
      requires Valid()
      requires settleWatching
      modifies this
      ensures Valid()
      ensures Settled(scrollY, old(tops[targetIndex])) ==>
        && !isPaging && currentIndex == old(targetIndex) && !settleWatching
        && targetIndex == old(targetIndex) && tops == old(tops)
        && touchStartY == old(touchStartY) && scrollRequests == old(scrollRequests)
      ensures !Settled(scrollY, old(tops[targetIndex])) ==> unchanged(this)
    {
      var t := tops[targetIndex];
      if RealMath.Abs(scrollY - t) < SettleEpsilon {
        isPaging := false;
        currentIndex := targetIndex;
        settleWatching := false;
      }
    }

    /** The wheel handler: ignored while paging; else a step by the sign of deltaY and the watcher. */
    method OnWheel(deltaY: real)
      requires Valid()
      modifies this
      ensures Valid()
      ensures old(isPaging) ==> unchanged(this)
      ensures !old(isPaging) ==>
        && settleWatching
        && tops == old(tops) && currentIndex == old(currentIndex) && touchStartY == old(touchStartY)
        && (WheelStep(deltaY) != 0 ==>
              && isPaging && targetIndex == ClampIndex(old(currentIndex) + WheelStep(deltaY), |ids|)
              && scrollRequests == old(scrollRequests) + [tops[targetIndex]])
        && (WheelStep(deltaY) == 0 ==>
              && isPaging == old(isPaging) && targetIndex == old(targetIndex)
              && scrollRequests == old(scrollRequests))
    {
      if isPaging {
        return;
      }
      var dir := WheelStep(deltaY);
      if dir > 0 {
        ScrollToIndex(currentIndex + 1);
      } else if dir < 0 {
        ScrollToIndex(currentIndex - 1);
      }
      StartSettleWatcher();
    }

    /** `touchstart`: remember where the finger went down (not guarded). */
    method OnTouchStart(clientY: real)
      requires Valid()
      modifies this
      ensures Valid()
      ensures touchStartY == clientY
      ensures tops == old(tops) && currentIndex == old(currentIndex) && targetIndex == old(targetIndex)
      ensures isPaging == old(isPaging) && settleWatching == old(settleWatching)
      ensures scrollRequests == old(scrollRequests)
    {
      touchStartY := clientY;
    }

    /**
     * `touchend`: ignored while paging or for a swipe under 40 px; an upward
     * swipe pages down, a downward one pages up, and the watcher starts.
     */
    method OnTouchEnd(clientY: real)
      requires Valid()
      modifies this
      ensures Valid()
      ensures old(isPaging) || SwipeStep(clientY - old(touchStartY)) == 0 ==> unchanged(this)
      ensures !old(isPaging) && SwipeStep(clientY - old(touchStartY)) != 0 ==>
        && isPaging && settleWatching
        && targetIndex == ClampIndex(old(currentIndex) + SwipeStep(clientY - old(touchStartY)), |ids|)
        && scrollRequests == old(scrollRequests) + [tops[targetIndex]]
        && tops == old(tops) && currentIndex == old(currentIndex) && touchStartY == old(touchStartY)
    {
      if isPaging {
        return;
      }
      var dy := clientY - touchStartY;
      if RealMath.Abs(dy) < SwipeThreshold {
        return;
      }
      if dy < 0.0 {
        ScrollToIndex(currentIndex + 1);
      } else {
        ScrollToIndex(currentIndex - 1);
      }
      StartSettleWatcher();
    }

    /** `keydown`: ignored while paging and for keys that do not page. */
    method OnKeyDown(key: string)
      requires Valid()
      modifies this
      ensures Valid()
      ensures old(isPaging) || KeyStep(key) == 0 ==> unchanged(this)
      ensures !old(isPaging) && KeyStep(key) != 0 ==>
        && isPaging && settleWatching
        && targetIndex == ClampIndex(old(currentIndex) + KeyStep(key), |ids|)
        && scrollRequests == old(scrollRequests) + [tops[targetIndex]]
        && tops == old(tops) && currentIndex == old(currentIndex) && touchStartY == old(touchStartY)
    {
      if isPaging {
        return;
      }
      if key in ["ArrowDown", "PageDown", " "] {
        ScrollToIndex(currentIndex + 1);
        StartSettleWatcher();
      } else if key in ["ArrowUp", "PageUp"] {
        ScrollToIndex(currentIndex - 1);
        StartSettleWatcher();
      }
    }

    /** A navigation-link click: jumps to the named section even while paging. */
    method OnNavClick(href: string)
      requires Valid()
      modifies this
      ensures Valid()
      ensures SectionForHref(ids, href) == -1 ==> unchanged(this)
      ensures SectionForHref(ids, href) >= 0 ==>
        && isPaging && settleWatching && targetIndex == SectionForHref(ids, href)
        && scrollRequests == old(scrollRequests) + [tops[targetIndex]]
        && tops == old(tops) && currentIndex == old(currentIndex) && touchStartY == old(touchStartY)
    {
      var idx := SectionForHref(ids, href);
      if idx >= 0 {
        ScrollToIndex(idx);
        StartSettleWatcher();
      }
    }

    /** `onResize` (its paging part): re-measure the tops and re-pick the closest section. */
    method OnResize(newTops: seq<real>, scrollY: real)
      requires Valid()
      requires |newTops| == |ids|
      modifies this
      ensures Valid()
      ensures tops == newTops
      ensures currentIndex == ScrollKeyframes.ClosestIn(newTops, scrollY, |newTops|)
      ensures targetIndex == old(targetIndex) && isPaging == old(isPaging)
      ensures settleWatching == old(settleWatching) && touchStartY == old(touchStartY)
      ensures scrollRequests == old(scrollRequests)
    {
      tops := newTops;
      currentIndex := ScrollKeyframes.ClosestSectionIndex(newTops, scrollY);
    }
  }
}
