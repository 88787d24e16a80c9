/** The easing curves and the frame-progress arithmetic shared by every animation. */
module Easing {
  import opened Common

  /** `t < 0.5 ? 2t^2 : -1 + (4 - 2t) t`, the default curve of the card tween and of
    * `tweenNumber`. */
  function EaseInOutQuad(t: real): real
  {
    if t < 0.5 then 2.0 * t * t else -1.0 + (4.0 - 2.0 * t) * t
  }

  /** `1 - (1 - t)^3`, used by the zoom and fade animations. */
  function EaseOutCubic(t: real): real
  {
    1.0 - (1.0 - t) * (1.0 - t) * (1.0 - t)
  }

  /** `Math.min(1, (now - start) / ms)`. */
  function Progress(now: real, start: real, ms: real): real
    requires ms > 0.0
  {
    MinR(1.0, (now - start) / ms)
  }

  /** `from + (to - from) * k`. */
  function Lerp(from: real, to: real, k: real): real
  {
    from + (to - from) * k
  }

  /** Progress lies in [0, 1] once the frame time has reached the start, and it is 1
    * exactly when the whole duration has elapsed. */
  lemma ProgressBounds(now: real, start: real, ms: real)
    requires ms > 0.0
    ensures now >= start ==> 0.0 <= Progress(now, start, ms) <= 1.0
    ensures Progress(now, start, ms) == 1.0 <==> now - start >= ms
    ensures Progress(now, start, ms) <= 1.0
  {
    var q := (now - start) / ms;
    assert q * ms == now - start;
    if now - start >= ms {
      assert q >= 1.0 by {
        if q < 1.0 { MulLe(q, 1.0, ms); }
      }
    } else {
      assert q < 1.0 by {
        if q >= 1.0 { MulLe(1.0, q, ms); }
      }
    }
    if now >= start {
      assert q >= 0.0;
    }
  }

  /** Progress never decreases as frame times advance. */
  lemma ProgressMonotone(now1: real, now2: real, start: real, ms: real)
    requires ms > 0.0 && now1 <= now2
    ensures Progress(now1, start, ms) <= Progress(now2, start, ms)
  {
    assert (now2 - start) / ms - (now1 - start) / ms == (now2 - now1) / ms;
  }

  /** Interpolation hits its endpoints exactly, and a constant interpolation stays put. */
  lemma LerpEnds(from: real, to: real, k: real)
    ensures Lerp(from, to, 0.0) == from
    ensures Lerp(from, to, 1.0) == to
    ensures Lerp(from, from, k) == from
  {
  }

  /** For a factor in [0, 1] the interpolation stays between its endpoints. */
  lemma LerpBetween(from: real, to: real, k: real)
    requires 0.0 <= k <= 1.0
    ensures MinR(from, to) <= Lerp(from, to, k) <= MaxR(from, to)
  {
    if from <= to {
      LerpUp(from, to, k);
    } else {
      LerpUp(to, from, 1.0 - k);
      LerpSwap(from, to, k);
    }
  }

  /** Rising interpolation stays between its endpoints. */
  lemma LerpUp(from: real, to: real, k: real)
    requires 0.0 <= k <= 1.0 && from <= to
    ensures from <= Lerp(from, to, k) <= to
  {
    var m := (to - from) * k;
    ScaledBetween(to - from, k);
    assert Lerp(from, to, k) == from + m;
  }

  /** Interpolating backwards with the complementary factor is the same interpolation. */
  lemma LerpSwap(from: real, to: real, k: real)
    ensures Lerp(from, to, k) == Lerp(to, from, 1.0 - k)
  {
    assert (from - to) * (1.0 - k) == (from - to) - (from - to) * k;
    assert (to - from) * k == -((from - to) * k);
  }

  /** Scaling a non-negative value by a factor in [0, 1] lands between 0 and the value. */
  lemma ScaledBetween(a: real, k: real)
    requires 0.0 <= k <= 1.0 && a >= 0.0
    ensures 0.0 <= a * k <= a
  {
    MulNonneg(a, k);
    MulNonneg(a, 1.0 - k);
    assert a * (1.0 - k) == a - a * k;
  }

  /** easeInOutQuad starts at 0, ends at 1 and stays in [0, 1] on [0, 1]. */
  lemma EaseInOutQuadRange(t: real)
    requires 0.0 <= t <= 1.0
    ensures 0.0 <= EaseInOutQuad(t) <= 1.0
    ensures t == 0.0 ==> EaseInOutQuad(t) == 0.0
    ensures t == 1.0 ==> EaseInOutQuad(t) == 1.0
  {
    if t < 0.5 {
      assert t * t <= 0.5 * t;
    } else {
      var u := 1.0 - t;
      assert EaseInOutQuad(t) == 1.0 - 2.0 * u * u;
      assert u * u <= 0.5 * u;
    }
  }

  /** easeInOutQuad is nondecreasing on [0, 1]. */
  lemma EaseInOutQuadMonotone(t1: real, t2: real)
    requires 0.0 <= t1 <= t2 <= 1.0
    ensures EaseInOutQuad(t1) <= EaseInOutQuad(t2)
  {
    if t2 < 0.5 {
      SquareMonotone(t1, t2);
    } else if t1 >= 0.5 {
      var u1 := 1.0 - t1;
      var u2 := 1.0 - t2;
      assert EaseInOutQuad(t1) == 1.0 - 2.0 * u1 * u1;
      assert EaseInOutQuad(t2) == 1.0 - 2.0 * u2 * u2;
      SquareMonotone(u2, u1);
    } else {
      assert t1 * t1 <= 0.5 * 0.5 by { SquareMonotone(t1, 0.5); }
      var u2 := 1.0 - t2;
      assert EaseInOutQuad(t2) == 1.0 - 2.0 * u2 * u2;
      assert u2 * u2 <= 0.5 * 0.5 by { SquareMonotone(u2, 0.5); }
    }
  }

  lemma MulLe(a: real, b: real, c: real)
    requires a <= b && c >= 0.0
    ensures a * c <= b * c
  {
    MulNonneg(b - a, c);
  }

  lemma MulNonneg(a: real, b: real)
    requires a >= 0.0 && b >= 0.0
    ensures a * b >= 0.0
  {
  }

  lemma SquareMonotone(a: real, b: real)
    requires 0.0 <= a <= b
    ensures a * a <= b * b
  {
    assert b * b - a * a == (b - a) * (b + a);
  }

  /** easeOutCubic starts at 0, ends at 1 and stays in [0, 1] on [0, 1]. */
  lemma EaseOutCubicRange(t: real)
    requires 0.0 <= t <= 1.0
    ensures 0.0 <= EaseOutCubic(t) <= 1.0
    ensures t == 0.0 ==> EaseOutCubic(t) == 0.0
    ensures t == 1.0 ==> EaseOutCubic(t) == 1.0
  {
    var u := 1.0 - t;
    assert 0.0 <= u * u <= 1.0 by { SquareMonotone(u, 1.0); MulNonneg(u, u); }
    MulNonneg(u * u, u);
    assert u * u * u <= u * u by { MulNonneg(u * u, 1.0 - u); }
  }

  /** easeOutCubic is nondecreasing on [0, 1]. */
  lemma EaseOutCubicMonotone(t1: real, t2: real)
    requires 0.0 <= t1 <= t2 <= 1.0
    ensures EaseOutCubic(t1) <= EaseOutCubic(t2)
  {
    var u1 := 1.0 - t1;
    var u2 := 1.0 - t2;
    SquareMonotone(u2, u1);
    assert u2 * u2 * u2 <= u1 * u1 * u2 by { assert u2 * u2 * u2 <= u1 * u1 * u2 <== u2 >= 0.0; }
    assert u1 * u1 * u2 <= u1 * u1 * u1 by { assert u1 * u1 * (u1 - u2) >= 0.0; }
  }
}
