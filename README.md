# Bookkeeping of the DreamerV3 agent's training step

This project models the deterministic bookkeeping in `models.py` of a
PyTorch DreamerV3 agent and proves properties of it. That file holds a
world model (`WorldModel`), an actor-critic trained on imagined rollouts
(`ImagBehavior`) and an actor with twin critics trained on replayed data
(`Behavior`). The networks, distributions and optimizers are not part of
this model. Their outputs are inputs here: log-probabilities, critic values,
continuation means, entropies and the percentiles of the targets.

What is modelled:

- The reward normaliser `RewardEMA` (`reward_ema.dfy`). It keeps a two-slot
  buffer that every call overwrites in place with an exponential moving
  average of the 5th and 95th percentiles. It returns an offset and a
  spread floored at 1.0.
- The slow-target scheduler of both behaviours (`slow_target.dfy`,
  `behaviors.dfy`). A call counter gates an in-place blend of every slow
  critic parameter toward its live parameter. Critic parameters are
  flattened into one array of reals per critic.
- The replay behaviour's update throttle (`Behaviors.Behavior.Train`). The
  `total_it` counter decides whether the actor loss is built and whether the
  actor steps. Both critics step on every call that gets past the actor
  step.
- Target and weight assembly of both `_compute_target`s (`targets.dfy`):
  - the discount;
  - the loss weights, a cumulative product;
  - the baseline `value[:-1]` and the bootstrap `value[-1]`;
  - the elementwise minimum of the twin critics.
- The actor-loss dispatch of both `_compute_actor_loss`s (`actor_loss.dfy`).
  It covers the estimator names and the normalised advantage. The loss is
  `-weights[:-1] * actor_target`, or `-value[:-1]` for `td3`.
- The imagination rollout `_imagine` (`imagination.dfy`). It is a scan of
  abstract `get_feat`, `img_step` and policy-sampling functions over the
  flattened start state.
- The world model's bookkeeping (`world_model.dfy`):
  - the feature width and the `grad_heads` check of `__init__`;
  - the per-head loss scaling and the shape assertions of `_train`;
  - `preprocess`, which mutates the caller's discount array through a
    shallow dict copy.

Tensors are time-major sequences of reals for one batch element. The
batch dimension matters only in `_imagine` and in the world-model loss,
where it is modelled explicitly. Python exceptions become `Failure`
values:

- `NotImplementedError` for an unknown estimator;
- `UnboundLocalError` for `adv` or `actor_loss`;
- `ZeroDivisionError` for a zero period;
- `AssertionError` or `KeyError` in `preprocess` and in the loss shape checks;
- `IndexError` for an empty value sequence.

Two details of the code that the model keeps:

- `_imagine` returns `horizon` features, states and actions; the states are
  the start followed by every successor but the last (models.py:368).
  `Imagination.ImagineSteps` proves this.
- The EMA buffer is updated before the estimator dispatch, `td3` included
  (models.py:722-723). `_train` subtracts the entropy bonus from every
  estimator's loss (models.py:572). `Behaviors.Behavior.ComputeActorLoss`
  and `Behaviors.TrainOutcome` state both.

## Model

| member | source | states |
|---|---|---|
| RewardNormalizer.RewardEma.constructor | models.py:16-19 | the smoothing factor defaults to 0.01 |
| RewardNormalizer.RewardEma.Call | models.py:21-28 | the buffer becomes `alpha*q[i] + (1-alpha)*old[i]` in both slots, in place; the offset is the new low slot and the scale the new spread floored at 1.0, so at least 1.0 |
| RewardNormalizer.NormScale | models.py:26 | the scale is at least 1.0 and at least the spread, and it is one of the two |
| RewardNormalizer.EmaStepBetween | models.py:25 | with `0 <= alpha <= 1` each slot lands between its old value and its new percentile |
| RewardNormalizer.EmaStepKeepsOrder | models.py:25 | ordered percentiles keep an ordered buffer ordered, so the low slot never passes the high one |
| RewardNormalizer.EmaAfterDecays | models.py:25 | under constant percentiles each slot's distance to its percentile shrinks by `(1-alpha)^n` after n calls |
| RewardNormalizer.EmaAfterBetween | models.py:25 | with `0 <= alpha <= 1`, any number of calls under constant percentiles keeps each slot between its starting value and its percentile |
| RewardNormalizer.NormalizedBand | models.py:405-409 | normalising by the offset and scale maps the tracked band into [0, 1], and onto exactly [0, 1] once it is at least one wide |
| SlowTarget.BlendInto | models.py:438-439 | each slow parameter becomes `mix*live + (1-mix)*slow`, in place, and the live parameters are unchanged |
| SlowTarget.BlendAllBetween | models.py:437-439 | a fraction of one copies the live critic and zero keeps the slow one; any fraction in between keeps each slow parameter between its old value and its live one |
| SlowTarget.BlendsInCount | models.py:434-440 | with a positive period p the first n calls blend exactly ceil(n/p) times, so the very first call blends |
| Behaviors.ImagBehavior.constructor | models.py:254-283 | the slow critic is a copy of the live one, the counter is 0 and the EMA buffer is zeros |
| Behaviors.ImagBehavior.UpdateSlowTarget | models.py:434-440 | when off, nothing changes; a zero period is a division error before any change; otherwise the counter grows by one and the blend runs iff the pre-increment counter is a multiple of the period |
| Behaviors.ImagBehavior.ComputeActorLoss | models.py:392-432 | with `reward_EMA` on, the buffer takes one EMA step first, whatever the estimator; the loss is the dispatch result under the new offset and scale |
| Behaviors.NormOf | models.py:405-408 | the scale the advantage divides by is at least 1.0 |
| Behaviors.Behavior.constructor | models.py:498-540 | both slow critics are copies of their live critics, both counters are 0 and the EMA buffer is zeros |
| Behaviors.Behavior.UpdateSlowTarget | models.py:858-866 | the same gate as the single critic; both slow critics blend under it, and the live critics are unchanged |
| Behaviors.Behavior.ComputeActorLoss | models.py:708-758 | with `reward_EMA` on, the buffer takes one EMA step first, `td3` included; the loss is the replay dispatch under the new offset and scale |
| Behaviors.Behavior.Train | models.py:547-631 | the slow targets update first; `total_it` then grows by exactly one; the EMA buffer moves only on calls that build the actor loss; the result is `TrainOutcome` of the new counter |
| Behaviors.TrainOutcome | models.py:563-631 | a call succeeds iff the frequency is non-zero, an even counter is a multiple of it, and a built loss is a loss rather than an error; on success both critics step, the actor steps iff `total_it` is even, the loss exists iff `total_it % mf_policy_freq == 0` and is the estimator's loss minus the entropy bonus, and a step always has a loss; an even counter that is not a multiple fails as unbound; a zero frequency is a division error; an estimator error propagates |
| Behaviors.ThrottleSafeIff | models.py:563-629 | for a positive `mf_policy_freq`, every call succeeds iff the frequency is 1 or 2 |
| Behaviors.ThrottleSecondCallFails | models.py:628-629 | for a frequency of 3 or more, the first call neither builds nor steps the actor, and the second steps it without a loss |
| Behaviors.ThrottleGuardedRefines | models.py:628-629 | the guarded gates never fail for a non-zero frequency and step only with a loss, on even multiples; they agree with the written gates wherever those succeed, so for frequencies 1 and 2 on every call |
| Targets.ImagDiscountInUnit | models.py:373-377 | the discount is the configured factor times the continuation mean, or times ones; it is as long as its source; a factor and means in [0, 1] give discounts in [0, factor] |
| Targets.WeightsRecurrence | models.py:387-389 | the weights are as long as the discounts; the first is 1; each next one is the previous times the previous discount |
| Targets.WeightsClosedForm | models.py:387-389 | the weight at step t is the product of the first t discounts |
| Targets.WeightsDecay | models.py:703-705 | with discounts in [0, 1] the weights stay in [0, 1] and never grow |
| Targets.SplitTarget | models.py:379-390 | it fails iff the value sequence is empty; otherwise the call gets `reward[1:]`, `value[:-1]`, `discount[1:]`, the bootstrap `value[-1]` and lambda, the weights are the cumulative product of the shifted discounts, and the baseline is `value[:-1]` |
| Targets.ImagTarget | models.py:372-390 | it fails iff the value sequence is empty; otherwise the weights are built from the imagined discount, the call gets that discount from step 1 on, and baseline plus bootstrap are the value sequence |
| Targets.ImagTargetWeightsInUnit | models.py:372-390 | for a non-empty rollout, a factor and continuation means in [0, 1], the target succeeds and its weights start at 1, stay in [0, 1] and never grow |
| Targets.TwinTarget | models.py:691-706 | it fails iff the critics' sequences are empty; otherwise the weights are the cumulative product of the shifted discounts, and baseline plus bootstrap are the elementwise minimum of the two critics |
| Targets.MinAll | models.py:694 | each entry is at most both critics and equals one of them |
| Targets.TwinTargetPessimistic | models.py:691-706 | baseline and bootstrap are never above either critic; with identical critics it is the single-critic target |
| ActorLoss.ParseImagGradient | models.py:414-430 | it succeeds iff the name is dynamics, reinforce or both, and otherwise reports the name as not implemented |
| ActorLoss.ParseMfGradient | models.py:731-757 | the same, with td3 also accepted |
| ActorLoss.ParseName | models.py:731-757 | parsing a name gives its estimator back, and only the names parse |
| ActorLoss.AdvantageIsScaledGap | models.py:405-409 | the offset cancels: the advantage is `(target - base)/scale`; it has the sign of `target - base` and is no larger in magnitude |
| ActorLoss.ImagActorLoss | models.py:414-431 | a loss has one entry per target step |
| ActorLoss.ReplayActorLoss | models.py:731-758 | a loss has one entry per target step |
| ActorLoss.ActorLossDefinedIff | models.py:405-430 | the loss exists iff the estimator is reinforce or both, or dynamics with the EMA on; dynamics without the EMA is unbound, an unknown name is not implemented; the replay dispatch agrees except for td3, which always succeeds |
| ActorLoss.ActorLossEntries | models.py:414-431 | entry t of the loss is minus the weight times the actor target: the scaled advantage for dynamics with the EMA on, `logProb * (target - critic)` for reinforce, the `mix` blend of target and that term for both; for td3 it is `-value[t]` (models.py:749-754) |
| ActorLoss.DynamicsLossSign | models.py:414-431 | each dynamics loss entry is minus its weight times the scaled advantage, negative exactly when the target beats the baseline |
| ActorLoss.MixedTargetEnds | models.py:421-427 | a mix of one is the raw target and zero is the reinforce term; a mix in between stays between the two |
| Imagination.FlattenIndex | models.py:354-355 | merging the two leading axes keeps every state, at its row-major position |
| Imagination.ScanAt | models.py:357-367 | step k reads its feature from the state it starts in, samples its action from that feature and steps to its successor |
| Imagination.ScanPrefix | models.py:365-367 | a shorter scan is a prefix of a longer one from the same seed |
| Imagination.ImagineSteps | models.py:352-370 | features, states and actions all have length horizon; the first state is the flattened start; each next state is the step of the previous state and action |
| Imagination.ImaginePrefix | models.py:352-370 | a longer horizon extends the rollout without changing its first steps |
| WorldModel.FeatSizeIsFeatureWidth | models.py:58-61 | the width is `stoch*discrete + deter` for a discrete latent and `stoch + deter` otherwise, the length of the concatenated feature |
| WorldModel.CheckGradHeads | models.py:89-90 | no name is reported iff every `grad_heads` name is a head; otherwise the first name that is not one is reported |
| WorldModel.ConfiguredScales | models.py:105-108 | the reward and cont losses take their configured scales, every other head 1.0 |
| WorldModel.FirstBadHead | models.py:141-144 | no head is reported iff every head loss has the grid shape; otherwise the reported name and shape are those of the first head whose shape is wrong |
| WorldModel.ModelLoss | models.py:129-149 | it succeeds iff the KL loss and every head loss have shape `[batch, time]`, giving `batch*time` entries; a bad KL shape is reported first, and otherwise the error names the first head with a bad shape and its shape; entry i is the scaled sum of the head losses at i plus the KL loss at i |
| WorldModel.UnscaledHeadsSumPlainly | models.py:145-149 | with no configured scales, the scaled head sum is the plain sum of the head losses (the model loss adds the KL loss to it) |
| WorldModel.ScaledSumSplit | models.py:145-149 | the scaled sum is additive over any split of the heads, so each head contributes its own scaled loss |
| WorldModel.ZeroScaledHeadAddsNothing | models.py:145-149 | a head whose scale is zero adds nothing to the model loss |
| WorldModel.ScaleInPlace | models.py:180 | the caller's discount array is multiplied by the configured discount in place |
| WorldModel.PreprocessRanges | models.py:178-187 | pixels in [0, 255] map into [0, 1]; terminal flags in {0, 1} give continuation flags that are one exactly where the terminal flag is zero |
| WorldModel.Preprocess | models.py:176-189 | a missing image is a key error and a missing `is_first` or `is_terminal` an assertion failure, in that order; the discount is scaled in the caller's array only when the image is present, even when a later assertion fails; on success the keys are the input's plus `cont`, the image is scaled by 1/255, `cont = 1 - is_terminal`, and the rest is copied |

## Left out

- Networks (`MLP`, `RSSM`, the encoder and decoders) and distribution maths (`log_prob`, `entropy`, `mode`, `mean`, `kl_loss`, `torch.quantile`) are not shown or are floating-point library calls. Their results are inputs, and `get_feat`, `img_step` and policy sampling are function parameters.
- The body of `tools.lambda_return` is not part of this model. `Targets.SplitTarget` captures only the call it receives.
- `tools.static_scan`, `tools.Optimizer`, `tools.RequiresGrad` and `tools.tensorstats` are not part of this model. Optimizer steps are the `actorStepped` and `critic*Stepped` events.
- Gradient flow (`detach`, autograd), mixed precision and device placement have no counterpart in a model over reals.
- Randomness in policy sampling is not modelled. The sampled action is a function of step and feature.
- `WorldModel._train` beyond the loss combination, `video_pred`, metrics, `print` logging and the commented-out "decoder only" paths are left out. They are diagnostic or dead code.
- `torch.mean` reductions of the actor, critic and model losses are not modelled. The losses are kept per step.
- The critic losses and `ImagBehavior._train` are not modelled. The critic losses are network log-likelihoods, and `ImagBehavior._train` only sequences the modelled operations with them. The `mf_reg` KL term is left out for the same reason.
- Trailing singleton axes (`unsqueeze(-1)`, `[:, :, None]`) and the batch axis of the actor loss are dropped. The model is per batch element.
- Behaviors.ImagBehavior.constructor: allocates the slow critic and the EMA buffer always. The source allocates them only when `slow_target` and `reward_EMA` are set.
- Behaviors.Behavior.constructor: allocates the slow critics and the EMA buffer always. The source allocates them only when `slow_target` and `reward_EMA` are set.
- Behaviors.Behavior.Train: requires `slow_target` on. With it off, the critic loss still calls the slow critics (models.py:608-609), which do not exist, so the call raises `AttributeError`.
- Imagination.Imagine: requires a horizon of at least one. With zero steps, `static_scan` has nothing to stack.
- ActorLoss.ImagActorLoss: its own contract states only the loss length. Which configurations succeed is stated by `ActorLoss.ActorLossDefinedIff`, and the entries by `ActorLoss.ActorLossEntries`.
- ActorLoss.ReplayActorLoss: its own contract states only the loss length. Which configurations succeed is stated by `ActorLoss.ActorLossDefinedIff`, and the entries by `ActorLoss.ActorLossEntries`.
- The EMA percentile levels 0.05 and 0.95 are not modelled. The percentiles are an input.

## Findings

| source | as written | input that shows it | evidently intended | confidence | as-written member | corrected member |
|---|---|---|---|---|---|---|
| models.py:628-629 | the actor steps on every even `total_it`, but `actor_loss` is bound only when `total_it % mf_policy_freq == 0` (models.py:563) | `mf_policy_freq = 3`: the second call (`total_it = 2`) reaches the actor step with `actor_loss` unbound and raises `UnboundLocalError` | step the actor only on calls that built its loss | not executed | Behaviors.ThrottleSecondCallFails | Behaviors.ThrottleGuardedRefines |

`Behaviors.Behavior.Train` keeps the gates as written, so that error is one of its outcomes. The guarded gates `Behaviors.ThrottleGuarded` are proved to agree with them on every call where they succeed. In particular they agree on every call for frequencies 1 and 2.
