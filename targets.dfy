/** Target and weight assembly of `_compute_target` (models.py:372-390 for
    the imagination behaviour, 691-706 for the replay behaviour with twin
    critics). The lambda-return itself is computed by `tools.lambda_return`,
    which is not part of this model: what is modelled is the call the source
    makes (how reward, value and discount are sliced and aligned), the loss
    weights and the baseline. Sequences are time-major, for one batch element. */
module Targets {
  import opened Wrappers
  import opened Blend

  function ScaleAll(c: real, s: seq<real>): seq<real>
  {
    seq(|s|, i requires 0 <= i < |s| => c * s[i])
  }

  /** The discount of an imagined rollout (models.py:373-377): the configured
      discount times the continuation head's mean when there is such a head,
      else times `ones_like(reward)`. */
  function ImagDiscount(gamma: real, contMean: Option<seq<real>>, reward: seq<real>): seq<real>
  {
    match contMean
    case Some(cont) => ScaleAll(gamma, cont)
    case None => seq(|reward|, _ => gamma)
  }

  predicate InUnit(s: seq<real>)
  {
    forall i :: 0 <= i < |s| ==> 0.0 <= s[i] <= 1.0
  }

  /** A discount factor in [0, 1] and continuation probabilities in [0, 1]
      give per-step discounts in [0, 1], each at most the discount factor. */
  lemma ImagDiscountInUnit(gamma: real, contMean: Option<seq<real>>, reward: seq<real>)
    requires 0.0 <= gamma <= 1.0
    requires contMean.Some? ==> InUnit(contMean.value)
    ensures contMean.Some? ==> |ImagDiscount(gamma, contMean, reward)| == |contMean.value|
    ensures contMean.None? ==> |ImagDiscount(gamma, contMean, reward)| == |reward|
    ensures InUnit(ImagDiscount(gamma, contMean, reward))
    ensures forall t :: 0 <= t < |ImagDiscount(gamma, contMean, reward)| ==>
      ImagDiscount(gamma, contMean, reward)[t] <= gamma
  {
    var d := ImagDiscount(gamma, contMean, reward);
    if contMean.Some? {
      var cont := contMean.value;
      assert d == ScaleAll(gamma, cont);
      forall t | 0 <= t < |d|
        ensures 0.0 <= d[t] <= gamma
      {
        var c := cont[t];
        assert 0.0 <= c <= 1.0;
        ScaleWithinGap(c, gamma);
        assert d[t] == gamma * c == c * gamma;
      }
    } else {
      forall t | 0 <= t < |d|
        ensures d[t] == gamma
      {
      }
    }
  }

  /** The product of a sequence, first element first. */
  function Prod(s: seq<real>): real
  {
    if s == [] then 1.0 else Prod(s[..|s| - 1]) * s[|s| - 1]
  }

  /** `torch.cumprod(x, 0)`. */
  function CumProd(s: seq<real>): seq<real>
  {
    seq(|s|, t requires 0 <= t < |s| => Prod(s[..t + 1]))
  }

  /** `torch.cat([torch.ones_like(discount[:1]), discount[:-1]], 0)`: the
      discounts shifted one step later with a one in front; empty for an
      empty discount, because `ones_like(discount[:1])` is then empty. */
  function ShiftIn(d: seq<real>): seq<real>
  {
    if d == [] then [] else [1.0] + d[..|d| - 1]
  }

  /** The loss weights (models.py:387-389 and 703-705). */
  function Weights(d: seq<real>): seq<real>
  {
    CumProd(ShiftIn(d))
  }

  /** Weights are as long as the discounts, start at one and each is the
      previous one times the previous step's discount. */
  lemma WeightsRecurrence(d: seq<real>)
    ensures |Weights(d)| == |d|
    ensures |d| > 0 ==> Weights(d)[0] == 1.0
    ensures forall t :: 0 < t < |d| ==> Weights(d)[t] == Weights(d)[t - 1] * d[t - 1]
  {
    WeightsFirst(d);
    forall t | 0 < t < |d|
      ensures Weights(d)[t] == Weights(d)[t - 1] * d[t - 1]
    {
      WeightsStep(d, t);
    }
  }

  lemma WeightsFirst(d: seq<real>)
    ensures |Weights(d)| == |d|
    ensures |d| > 0 ==> Weights(d)[0] == 1.0
  {
    var s := ShiftIn(d);
    if |d| > 0 {
      assert s[..1] == [1.0];
      assert [1.0][..0] == [];
      assert Prod(s[..1]) == Prod([]) * 1.0;
    }
  }

  lemma WeightsStep(d: seq<real>, t: nat)
    requires 0 < t < |d|
    ensures |Weights(d)| == |d| && Weights(d)[t] == Weights(d)[t - 1] * d[t - 1]
  {
    var s := ShiftIn(d);
    assert s[..t + 1][..t] == s[..t];
    assert s[t] == d[t - 1];
  }

  /** Closed form: the weight at step t is the product of the first t
      discounts, i.e. the probability-weighted chance of reaching step t. */
  lemma {:induction false} WeightsClosedForm(d: seq<real>, t: nat)
    requires t < |d|
    ensures |Weights(d)| == |d| && Weights(d)[t] == Prod(d[..t])
  {
    WeightsFirst(d);
    if t > 0 {
      WeightsClosedForm(d, t - 1);
      WeightsStep(d, t);
      var prefix := d[..t];
      assert prefix[..t - 1] == d[..t - 1];
      assert prefix[t - 1] == d[t - 1];
      assert Prod(prefix) == Prod(d[..t - 1]) * d[t - 1];
    }
  }

  /** With discounts in [0, 1] the weights stay in [0, 1] and never grow
      along the rollout. */
  lemma {:induction false} WeightsDecay(d: seq<real>, t: nat)
    requires InUnit(d) && t < |d|
    ensures |Weights(d)| == |d|
    ensures 0.0 <= Weights(d)[t] <= 1.0
    ensures t > 0 ==> Weights(d)[t] <= Weights(d)[t - 1]
  {
    WeightsFirst(d);
    if t > 0 {
      WeightsDecay(d, t - 1);
      WeightsStep(d, t);
      DecayStep(Weights(d)[t - 1], d[t - 1], Weights(d)[t]);
    }
  }

  lemma DecayStep(prev: real, f: real, next: real)
    requires 0.0 <= prev <= 1.0 && 0.0 <= f <= 1.0 && next == prev * f
    ensures 0.0 <= next <= prev
  {
    ScaleWithinGap(f, prev);
    assert prev * f == f * prev;
  }

  /** The arguments of the `tools.lambda_return` call. */
  datatype LambdaReturnCall = LambdaReturnCall(
    reward: seq<real>, value: seq<real>, discount: seq<real>, bootstrap: real, lambda: real)

  /** What `_compute_target` returns: the lambda-return call standing for
      `target`, the loss weights and the baseline `value[:-1]`. */
  datatype TargetParts = TargetParts(call: LambdaReturnCall, weights: seq<real>, base: seq<real>)

  /** `value[-1]` on a zero-length tensor raises `IndexError`. */
  datatype TargetError = EmptyValue

  /** The shared body of both `_compute_target`s once the value sequence is
      known (models.py:379-390, 695-706). */
  function SplitTarget(reward: seq<real>, value: seq<real>, discount: seq<real>, lambda: real)
    : (r: Result<TargetParts, TargetError>)
    requires |reward| == |value| == |discount|
    ensures r.Failure? <==> value == []
    ensures r.Success? ==>
      var c := r.value.call;
      && |c.reward| == |c.value| == |c.discount| == |r.value.base| == |value| - 1
      && r.value.weights == Weights(discount)
      && |r.value.weights| == |value|
      && (forall t :: 0 <= t < |c.value| ==>
            c.reward[t] == reward[t + 1] && c.value[t] == value[t] && c.discount[t] == discount[t + 1])
      && r.value.base == c.value
      && r.value.base + [c.bootstrap] == value
      && c.lambda == lambda
  {
    if value == [] then Failure(EmptyValue)
    else
      var n := |value|;
      WeightsRecurrence(discount);
      Success(TargetParts(
        LambdaReturnCall(reward[1..], value[..n - 1], discount[1..], value[n - 1], lambda),
        Weights(discount),
        value[..n - 1]))
  }

  /** `ImagBehavior._compute_target` (models.py:372-390). */
  function ImagTarget(gamma: real, contMean: Option<seq<real>>, reward: seq<real>, value: seq<real>, lambda: real)
    : (r: Result<TargetParts, TargetError>)
    requires |reward| == |value|
    requires contMean.Some? ==> |contMean.value| == |reward|
    ensures r.Failure? <==> value == []
    ensures r.Success? ==>
      && r.value.weights == Weights(ImagDiscount(gamma, contMean, reward))
      && r.value.base + [r.value.call.bootstrap] == value
      && r.value.call.discount == ImagDiscount(gamma, contMean, reward)[1..]
  {
    SplitTarget(reward, value, ImagDiscount(gamma, contMean, reward), lambda)
  }

  /** Elementwise `torch.min` of two critics. */
  function MinAll(a: seq<real>, b: seq<real>): (m: seq<real>)
    requires |a| == |b|
    ensures |m| == |a|
    ensures forall i :: 0 <= i < |m| ==> m[i] <= a[i] && m[i] <= b[i] && (m[i] == a[i] || m[i] == b[i])
  {
    seq(|a|, i requires 0 <= i < |a| => Min(a[i], b[i]))
  }

  /** `Behavior._compute_target` (models.py:691-706): the value is the
      elementwise minimum of the two critics' modes. */
  function TwinTarget(reward: seq<real>, value1: seq<real>, value2: seq<real>, discount: seq<real>, lambda: real)
    : (r: Result<TargetParts, TargetError>)
    requires |reward| == |value1| == |value2| == |discount|
    ensures r.Failure? <==> value1 == []
    ensures r.Success? ==>
      && r.value.weights == Weights(discount)
      && r.value.base + [r.value.call.bootstrap] == MinAll(value1, value2)
  {
    SplitTarget(reward, MinAll(value1, value2), discount, lambda)
  }

  /** The twin target is pessimistic: baseline and bootstrap are never
      above either critic; with two identical critics it is the
      single-critic target. */
  lemma TwinTargetPessimistic(reward: seq<real>, value1: seq<real>, value2: seq<real>, discount: seq<real>, lambda: real)
    requires |reward| == |value1| == |value2| == |discount| > 0
    ensures TwinTarget(reward, value1, value2, discount, lambda).Success?
    ensures var p := TwinTarget(reward, value1, value2, discount, lambda).value;
      && (forall t :: 0 <= t < |p.base| ==> p.base[t] <= value1[t] && p.base[t] <= value2[t])
      && p.call.bootstrap <= value1[|value1| - 1] && p.call.bootstrap <= value2[|value2| - 1]
    ensures value1 == value2 ==>
      TwinTarget(reward, value1, value2, discount, lambda) == SplitTarget(reward, value1, discount, lambda)
  {
    var m := MinAll(value1, value2);
    var p := TwinTarget(reward, value1, value2, discount, lambda).value;
    assert p.base + [p.call.bootstrap] == m;
    assert p.call.bootstrap == m[|m| - 1];
    forall t | 0 <= t < |p.base|
      ensures p.base[t] <= value1[t] && p.base[t] <= value2[t]
    {
      assert p.base[t] == m[t];
    }
    if value1 == value2 {
      assert m == value1;
    }
  }

  /** An imagined rollout with a discount factor and continuation means in
      [0, 1] has loss weights that start at one, stay in [0, 1] and never
      grow along the rollout. */
  lemma ImagTargetWeightsInUnit(gamma: real, contMean: Option<seq<real>>, reward: seq<real>, value: seq<real>, lambda: real)
    requires |reward| == |value| > 0
    requires contMean.Some? ==> |contMean.value| == |reward|
    requires 0.0 <= gamma <= 1.0
    requires contMean.Some? ==> InUnit(contMean.value)
    ensures ImagTarget(gamma, contMean, reward, value, lambda).Success?
    ensures var w := ImagTarget(gamma, contMean, reward, value, lambda).value.weights;
      && |w| == |value| && w[0] == 1.0
      && (forall t :: 0 <= t < |w| ==> 0.0 <= w[t] <= 1.0)
      && (forall t :: 0 < t < |w| ==> w[t] <= w[t - 1])
  {
    var d := ImagDiscount(gamma, contMean, reward);
    ImagDiscountInUnit(gamma, contMean, reward);
    WeightsFirst(d);
    var w := ImagTarget(gamma, contMean, reward, value, lambda).value.weights;
    assert w == Weights(d);
    forall t | 0 <= t < |w|
      ensures 0.0 <= w[t] <= 1.0 && (t > 0 ==> w[t] <= w[t - 1])
    {
      WeightsDecay(d, t);
    }
  }
}
