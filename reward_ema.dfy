/** `RewardEMA` (models.py:13-28): a two-slot exponential moving average of
    the 5th and 95th percentiles of the return targets, persisted in a buffer
    the caller owns and overwritten in place on every call. The percentiles
    themselves (`torch.quantile` at levels 0.05 and 0.95) are an input. */
module RewardNormalizer {
  import opened Blend

  /** The buffer after one call: each slot blended toward its percentile. */
  function EmaStep(alpha: real, q: (real, real), ema: seq<real>): seq<real>
    requires |ema| == 2
  {
    [Lerp(alpha, q.0, ema[0]), Lerp(alpha, q.1, ema[1])]
  }

  /** `torch.clip(high - low, min=1.0)`: the spread, floored at one. */
  function NormScale(low: real, high: real): (s: real)
    ensures s >= 1.0 && s >= high - low
    ensures s == 1.0 || s == high - low
  {
    if high - low < 1.0 then 1.0 else high - low
  }

  /** With `0 <= alpha <= 1` each slot lands between its old value and the
      new percentile. */
  lemma EmaStepBetween(alpha: real, q: (real, real), ema: seq<real>)
    requires |ema| == 2 && 0.0 <= alpha <= 1.0
    ensures Min(q.0, ema[0]) <= EmaStep(alpha, q, ema)[0] <= Max(q.0, ema[0])
    ensures Min(q.1, ema[1]) <= EmaStep(alpha, q, ema)[1] <= Max(q.1, ema[1])
  {
    LerpBetween(alpha, q.0, ema[0]);
    LerpBetween(alpha, q.1, ema[1]);
  }

  /** The low slot never passes the high one: ordered percentiles blended
      into an ordered buffer (the zero-initialised one included) keep it
      ordered. */
  lemma EmaStepKeepsOrder(alpha: real, q: (real, real), ema: seq<real>)
    requires |ema| == 2 && 0.0 <= alpha <= 1.0
    requires q.0 <= q.1 && ema[0] <= ema[1]
    ensures EmaStep(alpha, q, ema)[0] <= EmaStep(alpha, q, ema)[1]
  {
    ScaleWithinGap(alpha, q.1 - q.0);
    ScaleWithinGap(1.0 - alpha, ema[1] - ema[0]);
    assert Lerp(alpha, q.1, ema[1]) - Lerp(alpha, q.0, ema[0])
        == alpha * (q.1 - q.0) + (1.0 - alpha) * (ema[1] - ema[0]);
  }

  /** The buffer after `n` calls that all see the same percentiles. */
  function EmaAfter(alpha: real, q: (real, real), ema: seq<real>, n: nat): (r: seq<real>)
    requires |ema| == 2
    ensures |r| == 2
  {
    if n == 0 then ema else EmaStep(alpha, q, EmaAfter(alpha, q, ema, n - 1))
  }

  /** It is an exponential moving average: under constant percentiles each
      slot's distance to its percentile decays as `(1 - alpha)^n`. */
  lemma {:induction false} EmaAfterDecays(alpha: real, q: (real, real), ema: seq<real>, n: nat)
    requires |ema| == 2
    ensures EmaAfter(alpha, q, ema, n)[0] - q.0 == Pow(1.0 - alpha, n) * (ema[0] - q.0)
    ensures EmaAfter(alpha, q, ema, n)[1] - q.1 == Pow(1.0 - alpha, n) * (ema[1] - q.1)
  {
    EmaAfterIsRepeat(alpha, q, ema, n);
    RepeatGap(alpha, q.0, ema[0], n);
    RepeatGap(alpha, q.1, ema[1], n);
  }

  /** With `0 <= alpha <= 1`, any number of calls under constant
      percentiles keeps each slot between its starting value and its
      percentile: the average never overshoots. */
  lemma EmaAfterBetween(alpha: real, q: (real, real), ema: seq<real>, n: nat)
    requires |ema| == 2 && 0.0 <= alpha <= 1.0
    ensures Min(q.0, ema[0]) <= EmaAfter(alpha, q, ema, n)[0] <= Max(q.0, ema[0])
    ensures Min(q.1, ema[1]) <= EmaAfter(alpha, q, ema, n)[1] <= Max(q.1, ema[1])
  {
    EmaAfterIsRepeat(alpha, q, ema, n);
    RepeatBetween(alpha, q.0, ema[0], n);
    RepeatBetween(alpha, q.1, ema[1], n);
  }

  lemma {:induction false} EmaAfterIsRepeat(alpha: real, q: (real, real), ema: seq<real>, n: nat)
    requires |ema| == 2
    ensures EmaAfter(alpha, q, ema, n) == [Repeat(alpha, q.0, ema[0], n), Repeat(alpha, q.1, ema[1], n)]
  {
    if n > 0 {
      EmaAfterIsRepeat(alpha, q, ema, n - 1);
    }
  }

  /** Normalising by the returned offset and scale maps the tracked
      percentile band into [0, 1], onto exactly [0, 1] once it is at least
      one wide (models.py:407-408 divide by this scale). */
  lemma NormalizedBand(low: real, high: real)
    requires low <= high
    ensures (low - low) / NormScale(low, high) == 0.0
    ensures 0.0 <= (high - low) / NormScale(low, high) <= 1.0
    ensures high - low >= 1.0 ==> (high - low) / NormScale(low, high) == 1.0
  {
    var s := NormScale(low, high);
    if high - low < 1.0 {
      assert (high - low) / s == high - low;
    } else {
      assert s == high - low;
    }
  }

  class RewardEma {
    const alpha: real

    constructor(alpha: real := 0.01)
      ensures this.alpha == alpha
    {
      this.alpha := alpha;
    }

    /** `__call__`: blend the percentiles into `emaVals` in place and return
        the offset (the new low slot) and the floored spread. */
    method Call(q: (real, real), emaVals: array<real>) returns (offset: real, scale: real)
      requires emaVals.Length == 2
      modifies emaVals
      ensures emaVals[..] == EmaStep(alpha, q, old(emaVals[..]))
      ensures offset == emaVals[0]
      ensures scale == NormScale(emaVals[0], emaVals[1]) && scale >= 1.0
    {
      var next := EmaStep(alpha, q, emaVals[..]);
      emaVals[0], emaVals[1] := next[0], next[1];
      assert emaVals[..] == next;
      scale := NormScale(emaVals[0], emaVals[1]);
      offset := emaVals[0];
    }
  }
}
