/**
 * Pointer tilt of the rig: pointer events set a target in [-1, 1]^2 and
 * every render tick moves the damped pointer a fixed fraction (TiltEase)
 * of the way toward it. The yaw/pitch it feeds is composed with
 * quaternions, which this model does not cover.
 */
module PointerTilt {
  import opened RealMath

  /** `TILT_EASE`: the fraction of the remaining gap closed per tick. */
  const TiltEase: real := 0.2

  /** The fraction of the gap that remains after one tick. */
  const Retain: real := 1.0 - TiltEase

  /** One damping step `x += (target - x) * TILT_EASE`: the signed gap shrinks by Retain. */
  function Damp(x: real, target: real): (r: real)
    ensures target - r == Retain * (target - x)
    ensures x <= target ==> x <= r <= target
    ensures target <= x ==> target <= r <= x
  {
    x + (target - x) * TiltEase
  }

  /** Each step strictly closes a non-zero gap. */
  lemma DampCloser(x: real, target: real)
    requires x != target
    ensures Abs(target - Damp(x, target)) < Abs(target - x)
  {
    var d := target - x;
    assert target - Damp(x, target) == Retain * d;
    if d > 0.0 {
      assert Retain * d < d;
    } else {
      assert Retain * d > d;
    }
  }

  /** The damped value after n ticks toward a fixed target. */
  function DampTimes(x: real, target: real, n: nat): real
  {
    if n == 0 then x else Damp(DampTimes(x, target, n - 1), target)
  }

  function Pow(b: real, n: nat): real
  {
    if n == 0 then 1.0 else b * Pow(b, n - 1)
  }

  lemma {:induction false} DampTimesSigned(x: real, target: real, n: nat)
    ensures target - DampTimes(x, target, n) == Pow(Retain, n) * (target - x)
  {
    if n > 0 {
      DampTimesSigned(x, target, n - 1);
      var p := Pow(Retain, n - 1);
      var prev := DampTimes(x, target, n - 1);
      assert target - DampTimes(x, target, n) == Retain * (target - prev);
      assert Retain * (p * (target - x)) == (Retain * p) * (target - x);
    }
  }

  /** After n ticks the gap is Retain^n times the initial gap. */
  lemma DampTimesGap(x: real, target: real, n: nat)
    ensures Abs(target - DampTimes(x, target, n)) == Pow(Retain, n) * Abs(target - x)
  {
    DampTimesSigned(x, target, n);
    PowBound(n);
  }

  /** Bernoulli's bound, turned around: 0.8^n * (1 + 0.2 n) <= 1. */
  lemma {:induction false} PowBound(n: nat)
    ensures 0.0 < Pow(Retain, n)
    ensures Pow(Retain, n) * (1.0 + TiltEase * n as real) <= 1.0
  {
    if n > 0 {
      PowBound(n - 1);
      var p := Pow(Retain, n - 1);
      var m := (n - 1) as real;
      assert Pow(Retain, n) == 0.8 * p;
      assert 0.8 * (1.0 + 0.2 * (m + 1.0)) == 0.96 + 0.16 * m;
      assert 0.96 + 0.16 * m <= 1.0 + 0.2 * m;
      assert p * (0.96 + 0.16 * m) <= p * (1.0 + 0.2 * m);
    }
  }

  /** Damping converges: the gap to a fixed target falls below any eps > 0. */
  lemma DampConverges(x: real, target: real, eps: real)
    requires eps > 0.0
    ensures exists n: nat :: Abs(target - DampTimes(x, target, n)) < eps
  {
    var g := Abs(target - x);
    var q := g / (eps * TiltEase);
    var n: nat := q.Floor + 1;
    DampTimesGap(x, target, n);
    PowBound(n);
    SmallEnough(Pow(Retain, n), g, eps, n as real);
    assert Abs(target - DampTimes(x, target, n)) < eps;
  }

  /** If p (1 + 0.2 k) <= 1 and k exceeds g / (0.2 eps), then p g < eps. */
  lemma SmallEnough(p: real, g: real, eps: real, k: real)
    requires 0.0 < p && 0.0 <= g && 0.0 < eps
    requires p * (1.0 + TiltEase * k) <= 1.0
    requires k > g / (eps * TiltEase)
    ensures p * g < eps
  {
    var e := eps * TiltEase;
    assert k * e > g;
    assert TiltEase * k * eps > g;
    assert p * g <= p * (TiltEase * k * eps);
    assert p * (TiltEase * k) < p * (1.0 + TiltEase * k);
    assert p * (TiltEase * k) * eps < p * (1.0 + TiltEase * k) * eps;
  }

  /** The damped pointer (`mouse`) and its raw target (`targetMouse`). */
  class Tilt {
    var mouseX: real
    var mouseY: real
    var targetX: real
    var targetY: real

    /** Both vectors start at the origin. */
    constructor ()
      ensures mouseX == 0.0 && mouseY == 0.0 && targetX == 0.0 && targetY == 0.0
    {
      mouseX, mouseY, targetX, targetY := 0.0, 0.0, 0.0, 0.0;
    }

    /** `pointermove`: the pointer position mapped from the viewport to [-1, 1]. */
    method OnPointerMove(clientX: real, clientY: real, innerWidth: real, innerHeight: real)
      requires innerWidth > 0.0 && innerHeight > 0.0
      modifies this
      ensures targetX == (clientX / innerWidth) * 2.0 - 1.0
      ensures targetY == (clientY / innerHeight) * 2.0 - 1.0
      ensures 0.0 <= clientX <= innerWidth ==> -1.0 <= targetX <= 1.0
      ensures 0.0 <= clientY <= innerHeight ==> -1.0 <= targetY <= 1.0
      ensures mouseX == old(mouseX) && mouseY == old(mouseY)
    {
      targetX := (clientX / innerWidth) * 2.0 - 1.0;
      targetY := (clientY / innerHeight) * 2.0 - 1.0;
      assert 0.0 <= clientX <= innerWidth ==> clientX / innerWidth <= 1.0;
      assert 0.0 <= clientY <= innerHeight ==> clientY / innerHeight <= 1.0;
    }

    /** `pointerleave` and `blur`: the target returns to the centre. */
    method OnPointerLeave()
      modifies this
      ensures targetX == 0.0 && targetY == 0.0
      ensures mouseX == old(mouseX) && mouseY == old(mouseY)
    {
      targetX, targetY := 0.0, 0.0;
    }

    /** The per-frame damping of the pointer toward its target. */
    method Step()
      modifies this
      ensures mouseX == Damp(old(mouseX), targetX) && mouseY == Damp(old(mouseY), targetY)
      ensures targetX == old(targetX) && targetY == old(targetY)
    {
      mouseX := mouseX + (targetX - mouseX) * TiltEase;
      mouseY := mouseY + (targetY - mouseY) * TiltEase;
    }
  }
}
