/**
 * Scroll keyframe mapping of the landing page: which pair of section
 * keyframes the rig sits between for a given scroll sample, how far along
 * that pair it is, and which section a scroll offset is closest to.
 *
 * Section tops are absolute page offsets, one per section, in keyframe
 * order (the page's keyframe table and its section list have the same
 * length, so `|tops|` is also the number of keyframes).
 */
module ScrollKeyframes {
  import opened RealMath

  /** `Math.min(1, Math.max(0, x))`: the point of [0, 1] nearest to x. */
  function Clamp01(x: real): (r: real)
    ensures 0.0 <= r <= 1.0
    ensures 0.0 <= x <= 1.0 ==> r == x
    ensures x < 0.0 ==> r == 0.0
    ensures x > 1.0 ==> r == 1.0
  {
    Min(1.0, Max(0.0, x))
  }

  /** A keyframe pair index `i` (keyframes i and i+1) and the fraction `t` along it. */
  datatype Segment = Segment(i: int, t: real)

  /** y lies in the half-open interval [tops[k], tops[k+1]). */
  predicate InSegment(tops: seq<real>, y: real, k: int)
    requires 0 <= k < |tops| - 1
  {
    tops[k] <= y < tops[k + 1]
  }

  /** The fraction of y along [tops[k], tops[k+1]), clamped to [0, 1]. */
  function FractionIn(tops: seq<real>, y: real, k: int): real
    requires 0 <= k < |tops| - 1
    requires InSegment(tops, y, k)
  {
    Clamp01((y - tops[k]) / (tops[k + 1] - tops[k]))
  }

  /**
   * The scan of the loop, from pair k on: the first pair whose interval
   * holds y, else the last pair at t = 1.
   */
  function ScanFrom(tops: seq<real>, y: real, k: nat): Segment
    requires |tops| >= 2
    requires k <= |tops| - 1
    decreases |tops| - k
  {
    if k == |tops| - 1 then Segment(|tops| - 2, 1.0)
    else if InSegment(tops, y, k) then Segment(k, FractionIn(tops, y, k))
    else ScanFrom(tops, y, k + 1)
  }

  /** The value `getSegmentAndT(y)` computes. */
  function SegmentAndT(tops: seq<real>, y: real): Segment
    requires |tops| >= 2
  {
    if y < tops[0] then Segment(0, 0.0) else ScanFrom(tops, y, 0)
  }

  lemma {:induction false} ScanFromSpec(tops: seq<real>, y: real, k: nat)
    requires |tops| >= 2
    requires k <= |tops| - 1
    ensures var s := ScanFrom(tops, y, k);
      && 0 <= s.i && s.i + 1 < |tops| && 0.0 <= s.t <= 1.0
      && (forall j :: k <= j < |tops| - 1 && InSegment(tops, y, j) ==>
            k <= s.i <= j && InSegment(tops, y, s.i) && s.t == FractionIn(tops, y, s.i))
      && (forall j :: k <= j < s.i ==> !InSegment(tops, y, j))
      && ((forall j :: k <= j < |tops| - 1 ==> !InSegment(tops, y, j)) ==> s == Segment(|tops| - 2, 1.0))
    decreases |tops| - k
  {
    if k < |tops| - 1 && !InSegment(tops, y, k) {
      ScanFromSpec(tops, y, k + 1);
    }
  }

  /**
   * What `getSegmentAndT` promises: (0, 0) before the first top; the FIRST
   * pair whose half-open interval holds y, at the clamped fraction; else the
   * last pair at t = 1. The result always names a valid pair and t in [0, 1].
   */
  lemma SegmentAndTSpec(tops: seq<real>, y: real)
    requires |tops| >= 2
    ensures var s := SegmentAndT(tops, y);
      && 0 <= s.i && s.i + 1 < |tops| && 0.0 <= s.t <= 1.0
      && (y < tops[0] ==> s == Segment(0, 0.0))
      && (y >= tops[0] ==> forall k ::
            (0 <= k < |tops| - 1 && InSegment(tops, y, k) && forall j :: 0 <= j < k ==> !InSegment(tops, y, j))
            ==> s == Segment(k, FractionIn(tops, y, k)))
      && (y >= tops[0] && (forall k :: 0 <= k < |tops| - 1 ==> !InSegment(tops, y, k)) ==>
            s == Segment(|tops| - 2, 1.0))
  {
    ScanFromSpec(tops, y, 0);
  }

  /** For increasing tops, a sample at or past the last top maps to the last pair at t = 1. */
  lemma PastLastTop(tops: seq<real>, y: real)
    requires |tops| >= 2
    requires forall j :: 0 < j < |tops| ==> tops[j - 1] < tops[j]
    requires y >= tops[|tops| - 1]
    ensures SegmentAndT(tops, y) == Segment(|tops| - 2, 1.0)
  {
    forall k | 0 <= k < |tops| - 1 ensures !InSegment(tops, y, k) {
      IncreasingBelowLast(tops, k + 1);
    }
    IncreasingBelowLast(tops, 1);
    NoSegmentMeansLast(tops, y);
  }

  /** A sample at or past the first top that lies in no pair maps to the last pair at t = 1. */
  lemma NoSegmentMeansLast(tops: seq<real>, y: real)
    requires |tops| >= 2
    requires y >= tops[0]
    requires forall k :: 0 <= k < |tops| - 1 ==> !InSegment(tops, y, k)
    ensures SegmentAndT(tops, y) == Segment(|tops| - 2, 1.0)
  {
    ScanFromSpec(tops, y, 0);
  }

  lemma {:induction false} IncreasingBelowLast(tops: seq<real>, k: nat)
    requires 0 < k < |tops|
    requires forall j :: 0 < j < |tops| ==> tops[j - 1] < tops[j]
    ensures tops[k] <= tops[|tops| - 1]
    decreases |tops| - k
  {
    if k < |tops| - 1 {
      IncreasingBelowLast(tops, k + 1);
    }
  }

  /** The worked values for anchors [0, 1000, 3000]. */
  lemma SegmentExamples()
    ensures SegmentAndT([0.0, 1000.0, 3000.0], 500.0) == Segment(0, 0.5)
    ensures SegmentAndT([0.0, 1000.0, 3000.0], -100.0) == Segment(0, 0.0)
    ensures SegmentAndT([0.0, 1000.0, 3000.0], 4000.0) == Segment(1, 1.0)
  {
    PastLastTop([0.0, 1000.0, 3000.0], 4000.0);
  }

  /** `getSegmentAndT`: the early return, then a loop over the pairs. */
  method GetSegmentAndT(tops: seq<real>, y: real) returns (s: Segment)
    requires |tops| >= 2
    ensures s == SegmentAndT(tops, y)
    ensures 0 <= s.i && s.i + 1 < |tops| && 0.0 <= s.t <= 1.0
  {
    SegmentAndTSpec(tops, y);
    if y < tops[0] {
      return Segment(0, 0.0);
    }
    var i := 0;
    while i < |tops| - 1
      invariant 0 <= i <= |tops| - 1
      invariant ScanFrom(tops, y, i) == SegmentAndT(tops, y)
    {
      var start, end := tops[i], tops[i + 1];
      if y >= start && y < end {
        return Segment(i, Clamp01((y - start) / (end - start)));
      }
      i := i + 1;
    }
    return Segment(|tops| - 2, 1.0);
  }

  /** The scale lerp `a + (b - a) * t`: a at t = 0, b at t = 1. */
  function Lerp(a: real, b: real, t: real): (r: real)
    ensures t == 0.0 ==> r == a
    ensures t == 1.0 ==> r == b
  {
    a + (b - a) * t
  }

  /** For t in [0, 1] the lerp stays between its end points. */
  lemma LerpWithin(a: real, b: real, t: real)
    requires 0.0 <= t <= 1.0
    ensures Min(a, b) <= Lerp(a, b, t) <= Max(a, b)
  {
    FractionOfGap(b - a, t, (b - a) * t);
  }

  lemma FractionOfGap(d: real, t: real, dt: real)
    requires 0.0 <= t <= 1.0
    requires dt == d * t
    ensures d >= 0.0 ==> 0.0 <= dt <= d
    ensures d < 0.0 ==> d <= dt <= 0.0
  {
    if d >= 0.0 {
      assert d * t <= d * 1.0;
    } else {
      assert (-d) * t <= (-d) * 1.0;
    }
  }

  /** The keyframe scales in section order. */
  const KeyframeScales: seq<real> := [1.15, 1.15, 1.9]

  /** The rig scale a render tick sets for scroll sample y. */
  function RigScale(scales: seq<real>, tops: seq<real>, y: real): real
    requires |tops| >= 2
    requires |scales| == |tops|
  {
    SegmentAndTSpec(tops, y);
    var s := SegmentAndT(tops, y);
    Lerp(scales[s.i], scales[s.i + 1], s.t)
  }

  /** With the page's keyframes, the rig scale never leaves [1.15, 1.9]. */
  lemma RigScaleBounds(tops: seq<real>, y: real)
    requires |tops| == |KeyframeScales|
    ensures 1.15 <= RigScale(KeyframeScales, tops, y) <= 1.9
  {
    SegmentAndTSpec(tops, y);
    var s := SegmentAndT(tops, y);
    LerpWithin(KeyframeScales[s.i], KeyframeScales[s.i + 1], s.t);
  }

  /** Distance of y to a section top. */
  function Dist(y: real, top: real): real { Abs(y - top) }

  /**
   * The index `closestSectionIndex` holds after scanning tops[..n]:
   * a strict `<` keeps the earliest of equally close tops; 0 when n == 0.
   */
  function ClosestIn(tops: seq<real>, y: real, n: nat): (k: nat)
    requires n <= |tops|
    ensures n == 0 ==> k == 0
    ensures n > 0 ==> k < n
    ensures n > 0 ==> forall j :: 0 <= j < n ==> Dist(y, tops[k]) <= Dist(y, tops[j])
    ensures n > 0 ==> forall j :: 0 <= j < k ==> Dist(y, tops[j]) > Dist(y, tops[k])
  {
    if n == 0 then 0
    else
      var b := ClosestIn(tops, y, n - 1);
      if n == 1 || Dist(y, tops[n - 1]) < Dist(y, tops[b]) then n - 1 else b
  }

  /** `closestSectionIndex`: a linear scan keeping the strictly closer top. */
  method ClosestSectionIndex(tops: seq<real>, y: real) returns (idx: nat)
    ensures idx == ClosestIn(tops, y, |tops|)
    ensures |tops| == 0 ==> idx == 0
    ensures |tops| > 0 ==> idx < |tops|
    ensures forall j :: 0 <= j < |tops| ==> Dist(y, tops[idx]) <= Dist(y, tops[j])
    ensures forall j :: 0 <= j < idx ==> Dist(y, tops[j]) > Dist(y, tops[idx])
  {
    idx := 0;
    var i := 0;
    var found := false;   // `min` is still Infinity
    var min := 0.0;
    while i < |tops|
      invariant 0 <= i <= |tops|
      invariant found <==> i > 0
      invariant idx == ClosestIn(tops, y, i)
      invariant found ==> min == Dist(y, tops[idx])
    {
      var d := Dist(y, tops[i]);
      if !found || d < min {
        min := d;
        idx := i;
      }
      found := true;
      i := i + 1;
    }
  }
}
