/** The slow-target rule of `_update_slow_target` (models.py:434-440 and its
    twin at 858-866): a call counter gates an exponential blend of every slow
    critic parameter toward the matching live one. Critic parameters are
    flattened into one array of reals. */
module SlowTarget {
  import opened Blend

  /** What one call does: nothing when slow targets are off, a
      `ZeroDivisionError` for a zero period, else blend or hold. */
  datatype SlowOutcome = Off | PeriodZero | Blended | Held

  /** The gate at models.py:435-436 (and 859-860), read on the counter
      value before this call's increment. */
  function SlowGate(enabled: bool, updates: nat, period: int): SlowOutcome
  {
    if !enabled then Off
    else if period == 0 then PeriodZero
    else if updates % period == 0 then Blended
    else Held
  }

  /** Every slow parameter blended toward its live twin (models.py:439). */
  function BlendAll(mix: real, live: seq<real>, slow: seq<real>): seq<real>
    requires |live| == |slow|
  {
    seq(|slow|, i requires 0 <= i < |slow| => Lerp(mix, live[i], slow[i]))
  }

  /** A fraction of one is a hard copy of the live critic, zero leaves the
      slow critic as it is, and anything in between moves each slow
      parameter toward its live one without overshooting. */
  lemma BlendAllBetween(mix: real, live: seq<real>, slow: seq<real>)
    requires |live| == |slow| && 0.0 <= mix <= 1.0
    ensures mix == 1.0 ==> BlendAll(mix, live, slow) == live
    ensures mix == 0.0 ==> BlendAll(mix, live, slow) == slow
    ensures forall i :: 0 <= i < |slow| ==>
      Min(live[i], slow[i]) <= BlendAll(mix, live, slow)[i] <= Max(live[i], slow[i])
  {
    forall i | 0 <= i < |slow|
      ensures Min(live[i], slow[i]) <= BlendAll(mix, live, slow)[i] <= Max(live[i], slow[i])
    {
      LerpBetween(mix, live[i], slow[i]);
    }
  }

  /** The number of blends in the first `n` calls (counter values 0 .. n-1). */
  function BlendsIn(n: nat, period: int): nat
  {
    if n == 0 then 0
    else BlendsIn(n - 1, period) + (if SlowGate(true, n - 1, period) == Blended then 1 else 0)
  }

  /** Integer division is determined by a quotient and an in-range remainder. */
  lemma DivModUnique(a: int, p: int, q: int, r: int)
    requires p > 0 && 0 <= r < p && a == q * p + r
    ensures a / p == q && a % p == r
  {
    var q', r' := a / p, a % p;
    assert a == q' * p + r';
    assert (q - q') * p == r' - r;
    if q' < q {
      MulAtLeast(q - q', p);
      assert false;
    } else if q' > q {
      MulAtLeast(q' - q, p);
      assert false;
    }
  }

  lemma MulAtLeast(k: int, p: int)
    requires k >= 1 && p > 0
    ensures k * p >= p
  {
    assert k * p == (k - 1) * p + p;
    assert (k - 1) * p >= 0;
  }

  /** With slow targets on and a positive period `p`, the first `n` calls
      blend exactly ceil(n / p) times: the very first call blends, then
      every p-th. */
  lemma {:induction false} BlendsInCount(n: nat, period: int)
    requires period > 0
    ensures BlendsIn(n, period) == (n + period - 1) / period
  {
    if n == 0 {
      DivModUnique(period - 1, period, 0, period - 1);
    } else {
      var m := n - 1;
      BlendsInCount(m, period);
      var k, r := m / period, m % period;
      assert m == k * period + r;
      if r == 0 {
        DivModUnique(m + period - 1, period, k, period - 1);
        DivModUnique(n + period - 1, period, k + 1, 0);
      } else {
        DivModUnique(m + period - 1, period, k + 1, r - 1);
        DivModUnique(n + period - 1, period, k + 1, r);
      }
    }
  }

  /** The zip loop of models.py:438-439: overwrite each slow parameter in
      place with its blend toward the live parameter. */
  method BlendInto(mix: real, live: array<real>, slow: array<real>)
    requires live.Length == slow.Length && live != slow
    modifies slow
    ensures slow[..] == BlendAll(mix, live[..], old(slow[..]))
  {
    for i := 0 to slow.Length
      invariant forall k :: 0 <= k < i ==> slow[k] == Lerp(mix, live[k], old(slow[k]))
      invariant forall k :: i <= k < slow.Length ==> slow[k] == old(slow[k])
    {
      slow[i] := Lerp(mix, live[i], slow[i]);
    }
  }
}
