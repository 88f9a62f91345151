/** The convex blend `w * target + (1 - w) * current` shared by the reward
    EMA (models.py:25), the slow-target update (models.py:439, 863, 865) and
    the mixed actor target (models.py:427, 746), with its properties. */
module Blend {

  function Lerp(w: real, target: real, current: real): real
  {
    w * target + (1.0 - w) * current
  }

  function Min(a: real, b: real): real
  {
    if a <= b then a else b
  }

  function Max(a: real, b: real): real
  {
    if a <= b then b else a
  }

  function Pow(x: real, n: nat): real
  {
    if n == 0 then 1.0 else x * Pow(x, n - 1)
  }

  /** One blend closes the gap to the target by the factor `1 - w`. */
  lemma LerpGap(w: real, target: real, current: real)
    ensures Lerp(w, target, current) - target == (1.0 - w) * (current - target)
  {
  }

  /** With a weight in [0, 1] the blend lies between the target and the
      current value: it moves toward the target and never overshoots. */
  lemma LerpBetween(w: real, target: real, current: real)
    requires 0.0 <= w <= 1.0
    ensures Min(target, current) <= Lerp(w, target, current) <= Max(target, current)
  {
    LerpGap(w, target, current);
    if target <= current {
      ScaleWithinGap(1.0 - w, current - target);
    } else {
      ScaleWithinGap(1.0 - w, target - current);
      assert (1.0 - w) * (current - target) == -((1.0 - w) * (target - current));
    }
  }

  lemma MulAssoc(a: real, b: real, c: real)
    ensures a * (b * c) == (a * b) * c
  {
  }

  /** A factor in [0, 1] shrinks a non-negative gap. */
  lemma ScaleWithinGap(f: real, gap: real)
    requires 0.0 <= f <= 1.0 && 0.0 <= gap
    ensures 0.0 <= f * gap <= gap
  {
    assert gap - f * gap == (1.0 - f) * gap;
  }

  /** `n` successive blends toward a fixed target: a persisted EMA slot fed
      the same quantile `n` times, or a slow parameter blended `n` times
      toward an unchanged live parameter. */
  function Repeat(w: real, target: real, current: real, n: nat): real
  {
    if n == 0 then current else Lerp(w, target, Repeat(w, target, current, n - 1))
  }

  /** The blend is an exponential low-pass filter: after `n` blends the gap
      to the target is the initial gap times `(1 - w)^n`. */
  lemma {:induction false} RepeatGap(w: real, target: real, current: real, n: nat)
    ensures Repeat(w, target, current, n) - target == Pow(1.0 - w, n) * (current - target)
  {
    if n > 0 {
      var prev := Repeat(w, target, current, n - 1);
      var f, p, gap := 1.0 - w, Pow(1.0 - w, n - 1), current - target;
      RepeatGap(w, target, current, n - 1);
      LerpGap(w, target, prev);
      MulAssoc(f, p, gap);
      assert Pow(1.0 - w, n) == f * p;
    }
  }

  /** With a weight in [0, 1], any number of blends stays between the
      target and the starting value. */
  lemma {:induction false} RepeatBetween(w: real, target: real, current: real, n: nat)
    requires 0.0 <= w <= 1.0
    ensures Min(target, current) <= Repeat(w, target, current, n) <= Max(target, current)
  {
    if n > 0 {
      RepeatBetween(w, target, current, n - 1);
      LerpBetween(w, target, Repeat(w, target, current, n - 1));
    }
  }
}
