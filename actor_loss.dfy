/** Actor-loss dispatch of `_compute_actor_loss` (models.py:392-432 for the
    imagination behaviour, 708-758 for the replay behaviour), after the
    reward-EMA call: the EMA's offset and scale come in as `norm`, `None`
    when `reward_EMA` is off. Network outputs (log-probabilities, critic
    values) are inputs. Sequences are time-major, for one batch element. */
module ActorLoss {
  import opened Wrappers
  import opened Blend

  /** The gradient estimators; `Td3` exists only in the replay behaviour. */
  datatype Gradient = Dynamics | Reinforce | Both | Td3

  /** `NotImplementedError(mode)`, or `UnboundLocalError` for `adv` when the
      dynamics estimator runs without the reward EMA. */
  datatype LossError = NotImplemented(mode: string) | AdvantageUnbound

  /** The configuration string of each estimator. */
  function Name(g: Gradient): string
  {
    match g
    case Dynamics => "dynamics"
    case Reinforce => "reinforce"
    case Both => "both"
    case Td3 => "td3"
  }

  /** The `imag_gradient` dispatch (models.py:414-430). */
  function ParseImagGradient(mode: string): (r: Result<Gradient, LossError>)
    ensures r.Success? <==> mode == "dynamics" || mode == "reinforce" || mode == "both"
    ensures r.Failure? ==> r.error == NotImplemented(mode)
  {
    if mode == "dynamics" then Success(Dynamics)
    else if mode == "reinforce" then Success(Reinforce)
    else if mode == "both" then Success(Both)
    else Failure(NotImplemented(mode))
  }

  /** The `mf_gradient` dispatch (models.py:731-757): the same three names
      plus `td3`. */
  function ParseMfGradient(mode: string): (r: Result<Gradient, LossError>)
    ensures r.Success? <==> mode == "dynamics" || mode == "reinforce" || mode == "both" || mode == "td3"
    ensures r.Failure? ==> r.error == NotImplemented(mode)
  {
    if mode == "td3" then Success(Td3) else ParseImagGradient(mode)
  }

  /** The dispatch recognises exactly the estimators' names: parsing a name
      gives its estimator back, and only a name parses. */
  lemma ParseName(g: Gradient, mode: string)
    ensures ParseMfGradient(Name(g)) == Success(g)
    ensures g != Td3 ==> ParseImagGradient(Name(g)) == Success(g)
    ensures ParseImagGradient(mode) == Success(g) ==> mode == Name(g) && g != Td3
    ensures ParseMfGradient(mode) == Success(g) ==> mode == Name(g)
  {
  }

  /** Everything `_compute_actor_loss` reads, for a rollout of T steps. */
  datatype ActorInputs = ActorInputs(
    target: seq<real>,       // lambda-return targets, T - 1 steps
    weights: seq<real>,      // loss weights, T steps
    base: seq<real>,         // baseline value[:-1], T - 1 steps
    logProb: seq<real>,      // policy.log_prob(action), T steps
    critic: seq<real>,       // critic mode on feat[:-1] (value_1 in the replay behaviour), T - 1 steps
    td3Value: seq<real>,     // value_1 mean after one img_step under a policy sample, T steps
    entropy: seq<real>,      // actor entropy, T steps
    quantiles: (real, real)  // 5th and 95th percentiles of the targets
  )

  predicate WellShaped(x: ActorInputs)
  {
    && |x.weights| >= 1
    && |x.target| == |x.base| == |x.critic| == |x.weights| - 1
    && |x.logProb| == |x.td3Value| == |x.entropy| == |x.weights|
  }

  /** `(x - offset) / scale`, elementwise. */
  function Normalize(x: seq<real>, offset: real, scale: real): seq<real>
    requires scale != 0.0
  {
    seq(|x|, i requires 0 <= i < |x| => (x[i] - offset) / scale)
  }

  /** `adv = normed_target - normed_base` (models.py:407-409, 724-726). */
  function Advantage(target: seq<real>, base: seq<real>, offset: real, scale: real): seq<real>
    requires |target| == |base| && scale != 0.0
  {
    var nt, nb := Normalize(target, offset, scale), Normalize(base, offset, scale);
    seq(|target|, i requires 0 <= i < |target| => nt[i] - nb[i])
  }

  /** The offset cancels: the advantage is `(target - base) / scale`. With
      the scale floored at one it keeps the sign of `target - base` and is
      never larger in magnitude. */
  lemma AdvantageIsScaledGap(target: seq<real>, base: seq<real>, offset: real, scale: real, t: nat)
    requires |target| == |base| && scale >= 1.0 && t < |target|
    ensures |Advantage(target, base, offset, scale)| == |target|
    ensures Advantage(target, base, offset, scale)[t] == (target[t] - base[t]) / scale
    ensures Advantage(target, base, offset, scale)[t] > 0.0 <==> target[t] > base[t]
    ensures target[t] >= base[t] ==> Advantage(target, base, offset, scale)[t] <= target[t] - base[t]
    ensures target[t] <= base[t] ==> Advantage(target, base, offset, scale)[t] >= target[t] - base[t]
  {
    var a, b := target[t], base[t];
    var adv := Advantage(target, base, offset, scale)[t];
    assert adv == (a - offset) / scale - (b - offset) / scale;
    assert adv == (a - b) / scale;
    assert adv * scale == a - b;
    if a >= b {
      assert (a - b) == (a - b) / scale * scale;
      ScaleWithinGap(1.0 / scale, a - b);
      assert adv == (1.0 / scale) * (a - b);
    } else {
      ScaleWithinGap(1.0 / scale, b - a);
      assert adv == -((1.0 / scale) * (b - a));
    }
  }

  /** `policy.log_prob(action)[:-1] * (target - critic)`: the score-function
      term of the reinforce estimator (models.py:417-420, 735-738). */
  function ReinforceTerm(x: ActorInputs): seq<real>
    requires WellShaped(x)
  {
    seq(|x.target|, t requires 0 <= t < |x.target| => x.logProb[t] * (x.target[t] - x.critic[t]))
  }

  /** `mix * target + (1 - mix) * reinforce` (models.py:427, 746). */
  function MixedTarget(mix: real, x: ActorInputs): seq<real>
    requires WellShaped(x)
  {
    var rt := ReinforceTerm(x);
    seq(|rt|, t requires 0 <= t < |rt| => Lerp(mix, x.target[t], rt[t]))
  }

  /** `actor_target` for the three estimators the two behaviours share. */
  function ActorTarget(mode: Gradient, norm: Option<(real, real)>, mix: real, x: ActorInputs)
    : Result<seq<real>, LossError>
    requires WellShaped(x) && mode != Td3
    requires norm.Some? ==> norm.value.1 >= 1.0
  {
    match mode
    case Dynamics =>
      if norm.None? then Failure(AdvantageUnbound)
      else Success(Advantage(x.target, x.base, norm.value.0, norm.value.1))
    case Reinforce => Success(ReinforceTerm(x))
    case Both => Success(MixedTarget(mix, x))
  }

  /** `-weights[:-1] * actor_target` (models.py:431, 733, 739, 748). */
  function WeightedLoss(weights: seq<real>, actorTarget: seq<real>): seq<real>
    requires |weights| == |actorTarget| + 1
  {
    seq(|actorTarget|, t requires 0 <= t < |actorTarget| => -weights[t] * actorTarget[t])
  }

  /** `ImagBehavior._compute_actor_loss` after the EMA call. */
  function ImagActorLoss(mode: string, norm: Option<(real, real)>, mix: real, x: ActorInputs)
    : (r: Result<seq<real>, LossError>)
    requires WellShaped(x)
    requires norm.Some? ==> norm.value.1 >= 1.0
    ensures r.Success? ==> |r.value| == |x.target|
  {
    match ParseImagGradient(mode)
    case Failure(e) => Failure(e)
    case Success(g) =>
      match ActorTarget(g, norm, mix, x)
      case Failure(e) => Failure(e)
      case Success(at) => Success(WeightedLoss(x.weights, at))
  }

  /** `Behavior._compute_actor_loss` after the EMA call: the shared
      estimators, or for `td3` the negated one-step look-ahead value
      `-value[:-1]`, with no weights. */
  function ReplayActorLoss(mode: string, norm: Option<(real, real)>, mix: real, x: ActorInputs)
    : (r: Result<seq<real>, LossError>)
    requires WellShaped(x)
    requires norm.Some? ==> norm.value.1 >= 1.0
    ensures r.Success? ==> |r.value| == |x.target|
  {
    match ParseMfGradient(mode)
    case Failure(e) => Failure(e)
    case Success(Td3) =>
      Success(seq(|x.target|, t requires 0 <= t < |x.target| => -x.td3Value[t]))
    case Success(g) =>
      match ActorTarget(g, norm, mix, x)
      case Failure(e) => Failure(e)
      case Success(at) => Success(WeightedLoss(x.weights, at))
  }

  /** Which configurations produce a loss: exactly the three names, and the
      dynamics estimator only with the reward EMA on; the replay behaviour
      agrees with the imagination one on every name but `td3`, which always
      succeeds. */
  lemma ActorLossDefinedIff(mode: string, norm: Option<(real, real)>, mix: real, x: ActorInputs)
    requires WellShaped(x)
    requires norm.Some? ==> norm.value.1 >= 1.0
    ensures ImagActorLoss(mode, norm, mix, x).Success?
        <==> mode == "reinforce" || mode == "both" || (mode == "dynamics" && norm.Some?)
    ensures mode == "dynamics" && norm.None? ==> ImagActorLoss(mode, norm, mix, x) == Failure(AdvantageUnbound)
    ensures mode != "dynamics" && mode != "reinforce" && mode != "both" ==>
      ImagActorLoss(mode, norm, mix, x) == Failure(NotImplemented(mode))
    ensures mode != "td3" ==> ReplayActorLoss(mode, norm, mix, x) == ImagActorLoss(mode, norm, mix, x)
    ensures mode == "td3" ==> ReplayActorLoss(mode, norm, mix, x).Success?
  {
  }

  /** Entry t of the loss for every estimator: minus the weight times the
      actor target (`-weights[:-1] * actor_target`), except `td3`, whose
      entry is the negated look-ahead value `-value[:-1]`. */
  lemma ActorLossEntries(mode: string, norm: Option<(real, real)>, mix: real, x: ActorInputs, t: nat)
    requires WellShaped(x) && t < |x.target|
    requires norm.Some? ==> norm.value.1 >= 1.0
    ensures mode == "reinforce" ==>
      && ImagActorLoss(mode, norm, mix, x).Success?
      && ImagActorLoss(mode, norm, mix, x).value[t] == -x.weights[t] * (x.logProb[t] * (x.target[t] - x.critic[t]))
    ensures mode == "both" ==>
      && ImagActorLoss(mode, norm, mix, x).Success?
      && ImagActorLoss(mode, norm, mix, x).value[t] == -x.weights[t] * Lerp(mix, x.target[t], ReinforceTerm(x)[t])
    ensures mode == "dynamics" && norm.Some? ==>
      && ImagActorLoss(mode, norm, mix, x).Success?
      && ImagActorLoss(mode, norm, mix, x).value[t]
         == -x.weights[t] * ((x.target[t] - x.base[t]) / norm.value.1)
    ensures mode == "td3" ==>
      && ReplayActorLoss(mode, norm, mix, x).Success?
      && ReplayActorLoss(mode, norm, mix, x).value[t] == -x.td3Value[t]
  {
    if mode == "dynamics" && norm.Some? {
      AdvantageIsScaledGap(x.target, x.base, norm.value.0, norm.value.1, t);
    }
  }

  /** The dynamics estimator: each step's loss is minus its weight times the
      scaled advantage, so with a positive weight the loss is negative
      exactly when the target beats the baseline. */
  lemma DynamicsLossSign(offset: real, scale: real, mix: real, x: ActorInputs, t: nat)
    requires WellShaped(x) && scale >= 1.0 && t < |x.target|
    requires x.weights[t] > 0.0
    ensures ImagActorLoss("dynamics", Some((offset, scale)), mix, x).Success?
    ensures ImagActorLoss("dynamics", Some((offset, scale)), mix, x).value[t]
        == -x.weights[t] * ((x.target[t] - x.base[t]) / scale)
    ensures ImagActorLoss("dynamics", Some((offset, scale)), mix, x).value[t] < 0.0
        <==> x.target[t] > x.base[t]
  {
    AdvantageIsScaledGap(x.target, x.base, offset, scale, t);
    var adv := (x.target[t] - x.base[t]) / scale;
    var loss := ImagActorLoss("dynamics", Some((offset, scale)), mix, x).value[t];
    assert loss == -x.weights[t] * adv;
    if adv > 0.0 {
      assert x.weights[t] * adv > 0.0;
    } else {
      assert x.weights[t] * -adv >= 0.0;
    }
  }

  /** The `both` mix interpolates the raw lambda-return target (not the
      normalised advantage) with the reinforce term: a mix of one is the
      target itself, zero is the reinforce term. */
  lemma MixedTargetEnds(mix: real, x: ActorInputs)
    requires WellShaped(x)
    ensures mix == 1.0 ==> MixedTarget(mix, x) == x.target
    ensures mix == 0.0 ==> MixedTarget(mix, x) == ReinforceTerm(x)
    ensures 0.0 <= mix <= 1.0 ==> forall t :: 0 <= t < |x.target| ==>
      Min(x.target[t], ReinforceTerm(x)[t]) <= MixedTarget(mix, x)[t] <= Max(x.target[t], ReinforceTerm(x)[t])
  {
    var rt := ReinforceTerm(x);
    if 0.0 <= mix <= 1.0 {
      forall t | 0 <= t < |x.target|
        ensures Min(x.target[t], rt[t]) <= MixedTarget(mix, x)[t] <= Max(x.target[t], rt[t])
      {
        LerpBetween(mix, x.target[t], rt[t]);
      }
    }
  }

  /** `actor_loss -= entropy_coef * actor_ent[:-1]` (models.py:313, 572). */
  function WithEntropyBonus(loss: seq<real>, coef: real, entropy: seq<real>): seq<real>
    requires |entropy| == |loss| + 1
  {
    seq(|loss|, t requires 0 <= t < |loss| => loss[t] - coef * entropy[t])
  }
}
