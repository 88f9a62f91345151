/** The two behaviour learners' state and bookkeeping: `ImagBehavior`
    (models.py:215-440) with one critic, and the replay behaviour `Behavior`
    (models.py:442-866) with twin critics, its `total_it` counter and the
    throttle of its `_train`. Critic parameters are flattened into one array
    of reals each; `ema_vals` is the two-slot buffer each registers. */
module Behaviors {
  import opened Wrappers
  import opened Configuration
  import opened SlowTarget
  import opened RewardNormalizer
  import opened ActorLoss

  /** The `(offset, scale)` the actor loss divides by, read from the buffer
      after the EMA call; `None` when `reward_EMA` is off. */
  function NormOf(rewardEma: bool, ema: seq<real>): (n: Option<(real, real)>)
    requires |ema| == 2
    ensures n.Some? ==> n.value.1 >= 1.0
  {
    if rewardEma then Some((ema[0], NormScale(ema[0], ema[1]))) else None
  }

  class ImagBehavior {
    const cfg: Config
    const value: array<real>
    const slowValue: array<real>
    var updates: nat
    const emaVals: array<real>
    const rewardEma: RewardEma

    ghost predicate Valid()
      reads this
    {
      && value.Length == slowValue.Length
      && emaVals.Length == 2
      && value != slowValue && emaVals != value && emaVals != slowValue
    }

    /** `__init__`: the slow critic is a deep copy of the live one, the
        counter starts at zero and the EMA buffer at zeros. */
    constructor(cfg: Config, params: seq<real>)
      ensures Valid() && this.cfg == cfg
      ensures value[..] == params && slowValue[..] == params && updates == 0
      ensures emaVals[..] == [0.0, 0.0] && rewardEma.alpha == 0.01
      ensures fresh(value) && fresh(slowValue) && fresh(emaVals)
    {
      this.cfg := cfg;
      value := new real[|params|](i requires 0 <= i < |params| => params[i]);
      slowValue := new real[|params|](i requires 0 <= i < |params| => params[i]);
      updates := 0;
      emaVals := new real[2](_ => 0.0);
      rewardEma := new RewardEma();
      new;
      assert emaVals[..] == [0.0, 0.0];
    }

    /** `_update_slow_target` (models.py:434-440). */
    method UpdateSlowTarget() returns (outcome: SlowOutcome)
      requires Valid()
      modifies this`updates, slowValue
      ensures Valid()
      ensures outcome == SlowGate(cfg.slowTarget, old(updates), cfg.slowTargetUpdate)
      ensures updates == if outcome.Blended? || outcome.Held? then old(updates) + 1 else old(updates)
      ensures slowValue[..] ==
        if outcome.Blended? then BlendAll(cfg.slowTargetFraction, value[..], old(slowValue[..]))
        else old(slowValue[..])
      ensures value[..] == old(value[..])
    {
      outcome := Off;
      if cfg.slowTarget {
        if cfg.slowTargetUpdate == 0 {
          return PeriodZero;
        }
        outcome := Held;
        if updates % cfg.slowTargetUpdate == 0 {
          BlendInto(cfg.slowTargetFraction, value, slowValue);
          outcome := Blended;
        }
        updates := updates + 1;
      }
    }

    /** `_compute_actor_loss` (models.py:392-432): the EMA buffer is updated
        first when `reward_EMA` is on, whatever the estimator, even one
        that then fails. */
    method ComputeActorLoss(x: ActorInputs) returns (r: Result<seq<real>, LossError>)
      requires Valid() && WellShaped(x)
      modifies emaVals
      ensures emaVals[..] ==
        if cfg.rewardEma then EmaStep(rewardEma.alpha, x.quantiles, old(emaVals[..])) else old(emaVals[..])
      ensures r == ImagActorLoss(cfg.imagGradient, NormOf(cfg.rewardEma, emaVals[..]), cfg.imagGradientMix, x)
    {
      var norm: Option<(real, real)> := None;
      if cfg.rewardEma {
        var offset, scale := rewardEma.Call(x.quantiles, emaVals);
        norm := Some((offset, scale));
      }
      r := ImagActorLoss(cfg.imagGradient, norm, cfg.imagGradientMix, x);
    }
  }

  /** Why a replay training step stops: `ZeroDivisionError` for a zero
      slow-target period or a zero `mf_policy_freq`, a failing actor loss,
      or `UnboundLocalError` for `actor_loss` at the actor step. */
  datatype TrainError = SlowPeriodZero | PolicyFreqZero | ActorLossFailed(e: LossError) | ActorLossUnbound

  /** The two gates of `Behavior._train` on the incremented counter: build
      the actor loss (models.py:563), step the actor (models.py:628). */
  datatype Gates = Gates(computeActor: bool, stepActor: bool)

  /** The gates as written: the step gate does not look at the loss gate,
      so an even counter that is not a multiple of the policy frequency
      reaches the actor step with no actor loss. */
  function Throttle(it: nat, freq: int): Result<Gates, TrainError>
  {
    if freq == 0 then Failure(PolicyFreqZero)
    else
      var compute, step := it % freq == 0, it % 2 == 0;
      if step && !compute then Failure(ActorLossUnbound) else Success(Gates(compute, step))
  }

  /** Every call succeeds, for a positive policy frequency, exactly when the
      frequency is 1 or 2. */
  lemma ThrottleSafeIff(freq: int)
    requires freq > 0
    ensures (forall it: nat :: Throttle(it, freq).Success?) <==> freq == 1 || freq == 2
  {
    if freq == 1 || freq == 2 {
      forall it: nat
        ensures Throttle(it, freq).Success?
      {
        if freq == 2 {
          assert it % 2 == 0 ==> it % freq == 0;
        } else {
          DivModUnique(it, 1, it, 0);
        }
      }
    } else {
      ThrottleSecondCallFails(freq);
    }
  }

  /** With any other frequency the second training call fails: the first
      (counter 1) neither builds nor steps the actor, the second (counter 2)
      steps it without having built its loss. */
  lemma ThrottleSecondCallFails(freq: int)
    requires freq >= 3
    ensures Throttle(1, freq) == Success(Gates(false, false))
    ensures Throttle(2, freq) == Failure(ActorLossUnbound)
  {
    DivModUnique(1, freq, 0, 1);
    DivModUnique(2, freq, 0, 2);
  }

  /** The gates as evidently intended: step the actor on even counters, but
      only when this call built its loss. */
  function ThrottleGuarded(it: nat, freq: int): Result<Gates, TrainError>
  {
    if freq == 0 then Failure(PolicyFreqZero)
    else
      var compute := it % freq == 0;
      Success(Gates(compute, compute && it % 2 == 0))
  }

  /** The guarded gates never step without a loss and never fail for a
      non-zero frequency; wherever the written gates succeed the two agree,
      so for frequencies 1 and 2 they agree on every call. */
  lemma ThrottleGuardedRefines(it: nat, freq: int)
    ensures freq != 0 ==> ThrottleGuarded(it, freq).Success?
    ensures ThrottleGuarded(it, freq).Success? ==>
      (ThrottleGuarded(it, freq).value.stepActor ==> ThrottleGuarded(it, freq).value.computeActor)
    ensures ThrottleGuarded(it, freq).Success? ==>
      (ThrottleGuarded(it, freq).value.stepActor <==> it % freq == 0 && it % 2 == 0)
    ensures Throttle(it, freq).Success? ==> ThrottleGuarded(it, freq) == Throttle(it, freq)
    ensures freq == 1 || freq == 2 ==> ThrottleGuarded(it, freq) == Throttle(it, freq)
  {
    if freq == 1 {
      DivModUnique(it, 1, it, 0);
    }
  }

  /** What a successful replay step did. */
  datatype TrainSteps = TrainSteps(actorLoss: Option<seq<real>>, actorStepped: bool,
                                   critic1Stepped: bool, critic2Stepped: bool)

  /** The outcome of `Behavior._train` (models.py:563-631) once the counter
      is incremented: `loss` is what `_compute_actor_loss` returns if it
      runs; the entropy bonus is subtracted from it (models.py:572). */
  function TrainOutcome(it: nat, freq: int, entropyCoef: real, loss: Result<seq<real>, LossError>, entropy: seq<real>)
    : (r: Result<TrainSteps, TrainError>)
    requires loss.Success? ==> |entropy| == |loss.value| + 1
    ensures r.Success? ==> r.value.critic1Stepped && r.value.critic2Stepped
    ensures r.Success? ==> (r.value.actorStepped <==> it % 2 == 0)
    ensures r.Success? ==> freq != 0 && (r.value.actorLoss.Some? <==> it % freq == 0)
    ensures r.Success? ==> (r.value.actorStepped ==> r.value.actorLoss.Some?)
    ensures freq == 0 ==> r == Failure(PolicyFreqZero)
    ensures freq != 0 && it % 2 == 0 && it % freq != 0 ==> r == Failure(ActorLossUnbound)
    ensures freq != 0 && it % freq == 0 && loss.Failure? ==> r == Failure(ActorLossFailed(loss.error))
    ensures r.Success? <==> freq != 0 && (it % 2 == 0 ==> it % freq == 0) && (it % freq == 0 ==> loss.Success?)
    ensures r.Success? && r.value.actorLoss.Some? ==>
      r.value.actorLoss.value == WithEntropyBonus(loss.value, entropyCoef, entropy)
  {
    match Throttle(it, freq)
    case Failure(e) => Failure(e)
    case Success(g) =>
      if !g.computeActor then Success(TrainSteps(None, g.stepActor, true, true))
      else match loss
        case Failure(e) => Failure(ActorLossFailed(e))
        case Success(l) => Success(TrainSteps(Some(WithEntropyBonus(l, entropyCoef, entropy)), g.stepActor, true, true))
  }

  class Behavior {
    const cfg: Config
    const value1: array<real>
    const value2: array<real>
    const slowValue1: array<real>
    const slowValue2: array<real>
    var updates: nat
    var totalIt: nat
    const emaVals: array<real>
    const rewardEma: RewardEma

    ghost predicate Valid()
      reads this
    {
      && value1.Length == slowValue1.Length && value2.Length == slowValue2.Length
      && emaVals.Length == 2
      && value1 != value2 && value1 != slowValue1 && value1 != slowValue2 && value1 != emaVals
      && value2 != slowValue1 && value2 != slowValue2 && value2 != emaVals
      && slowValue1 != slowValue2 && slowValue1 != emaVals && slowValue2 != emaVals
    }

    /** `__init__`: each slow critic is a deep copy of its live critic; both
        counters start at zero and the EMA buffer at zeros. */
    constructor(cfg: Config, params1: seq<real>, params2: seq<real>)
      ensures Valid() && this.cfg == cfg
      ensures value1[..] == params1 && slowValue1[..] == params1
      ensures value2[..] == params2 && slowValue2[..] == params2
      ensures updates == 0 && totalIt == 0
      ensures emaVals[..] == [0.0, 0.0] && rewardEma.alpha == 0.01
      ensures fresh(value1) && fresh(value2) && fresh(slowValue1) && fresh(slowValue2) && fresh(emaVals)
    {
      this.cfg := cfg;
      value1 := new real[|params1|](i requires 0 <= i < |params1| => params1[i]);
      value2 := new real[|params2|](i requires 0 <= i < |params2| => params2[i]);
      slowValue1 := new real[|params1|](i requires 0 <= i < |params1| => params1[i]);
      slowValue2 := new real[|params2|](i requires 0 <= i < |params2| => params2[i]);
      updates, totalIt := 0, 0;
      emaVals := new real[2](_ => 0.0);
      rewardEma := new RewardEma();
      new;
      assert emaVals[..] == [0.0, 0.0];
    }

    /** `_update_slow_target` (models.py:858-866): both slow critics are
        blended under the one gate. */
    method UpdateSlowTarget() returns (outcome: SlowOutcome)
      requires Valid()
      modifies this`updates, slowValue1, slowValue2
      ensures Valid()
      ensures outcome == SlowGate(cfg.slowTarget, old(updates), cfg.slowTargetUpdate)
      ensures updates == if outcome.Blended? || outcome.Held? then old(updates) + 1 else old(updates)
      ensures slowValue1[..] ==
        if outcome.Blended? then BlendAll(cfg.slowTargetFraction, value1[..], old(slowValue1[..]))
        else old(slowValue1[..])
      ensures slowValue2[..] ==
        if outcome.Blended? then BlendAll(cfg.slowTargetFraction, value2[..], old(slowValue2[..]))
        else old(slowValue2[..])
      ensures value1[..] == old(value1[..]) && value2[..] == old(value2[..])
    {
      outcome := Off;
      if cfg.slowTarget {
        if cfg.slowTargetUpdate == 0 {
          return PeriodZero;
        }
        outcome := Held;
        if updates % cfg.slowTargetUpdate == 0 {
          BlendInto(cfg.slowTargetFraction, value1, slowValue1);
          BlendInto(cfg.slowTargetFraction, value2, slowValue2);
          outcome := Blended;
        }
        updates := updates + 1;
      }
    }

    /** `_compute_actor_loss` (models.py:708-758): as in the imagination
        behaviour, the EMA buffer is updated first when `reward_EMA` is on,
        `td3` included. */
    method ComputeActorLoss(x: ActorInputs) returns (r: Result<seq<real>, LossError>)
      requires Valid() && WellShaped(x)
      modifies emaVals
      ensures emaVals[..] ==
        if cfg.rewardEma then EmaStep(rewardEma.alpha, x.quantiles, old(emaVals[..])) else old(emaVals[..])
      ensures r == ReplayActorLoss(cfg.mfGradient, NormOf(cfg.rewardEma, emaVals[..]), cfg.imagGradientMix, x)
    {
      var norm: Option<(real, real)> := None;
      if cfg.rewardEma {
        var offset, scale := rewardEma.Call(x.quantiles, emaVals);
        norm := Some((offset, scale));
      }
      r := ReplayActorLoss(cfg.mfGradient, norm, cfg.imagGradientMix, x);
    }

    /** The bookkeeping of `_train` (models.py:542-632): update the slow
        targets, increment `total_it`, build the actor loss (and so update
        the EMA buffer) only when the counter is a multiple of
        `mf_policy_freq`, step the actor only on even counters and both
        critics on every call that gets that far. Slow targets are on: the
        critic loss calls the slow critics unconditionally. */
    method Train(x: ActorInputs) returns (r: Result<TrainSteps, TrainError>)
      requires Valid() && WellShaped(x) && cfg.slowTarget
      modifies this`updates, this`totalIt, slowValue1, slowValue2, emaVals
      ensures Valid()
      ensures value1[..] == old(value1[..]) && value2[..] == old(value2[..])
      ensures var g := SlowGate(true, old(updates), cfg.slowTargetUpdate);
        && updates == (if g.PeriodZero? then old(updates) else old(updates) + 1)
        && slowValue1[..] ==
          (if g.Blended? then BlendAll(cfg.slowTargetFraction, value1[..], old(slowValue1[..])) else old(slowValue1[..]))
        && slowValue2[..] ==
          (if g.Blended? then BlendAll(cfg.slowTargetFraction, value2[..], old(slowValue2[..])) else old(slowValue2[..]))
      ensures cfg.slowTargetUpdate == 0 ==>
        r == Failure(SlowPeriodZero) && totalIt == old(totalIt) && emaVals[..] == old(emaVals[..])
      ensures cfg.slowTargetUpdate != 0 ==>
        && totalIt == old(totalIt) + 1
        && var built := cfg.mfPolicyFreq != 0 && totalIt % cfg.mfPolicyFreq == 0;
        && emaVals[..] ==
          (if built && cfg.rewardEma then EmaStep(rewardEma.alpha, x.quantiles, old(emaVals[..])) else old(emaVals[..]))
        && r == TrainOutcome(totalIt, cfg.mfPolicyFreq, cfg.actorEntropy,
                             ReplayActorLoss(cfg.mfGradient, NormOf(cfg.rewardEma, emaVals[..]), cfg.imagGradientMix, x),
                             x.entropy)
    {
      var slow := UpdateSlowTarget();
      if slow == PeriodZero {
        return Failure(SlowPeriodZero);
      }
      totalIt := totalIt + 1;
      if cfg.mfPolicyFreq == 0 {
        return Failure(PolicyFreqZero);
      }
      var loss: Option<seq<real>> := None;
      if totalIt % cfg.mfPolicyFreq == 0 {
        var l := ComputeActorLoss(x);
        if l.Failure? {
          return Failure(ActorLossFailed(l.error));
        }
        loss := Some(WithEntropyBonus(l.value, cfg.actorEntropy, x.entropy));
      }
      if totalIt % 2 == 0 {
        if loss.None? {
          return Failure(ActorLossUnbound);
        }
      }
      r := Success(TrainSteps(loss, totalIt % 2 == 0, true, true));
    }
  }
}
