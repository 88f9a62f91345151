/** The agent's configuration: read-only everywhere in models.py, so an
    immutable record. Only the fields the modelled bookkeeping reads are kept. */
module Configuration {

  datatype Config = Config(
    discount: real,              // config.discount
    discountLambda: real,        // config.discount_lambda
    dynStoch: nat,               // config.dyn_stoch
    dynDeter: nat,               // config.dyn_deter
    dynDiscrete: nat,            // config.dyn_discrete (0 means a continuous latent)
    gradHeads: seq<string>,      // config.grad_heads
    rewardLossScale: real,       // config.reward_head["loss_scale"]
    contLossScale: real,         // config.cont_head["loss_scale"]
    imagHorizon: nat,            // config.imag_horizon
    imagGradient: string,        // config.imag_gradient
    mfGradient: string,          // config.mf_gradient
    imagGradientMix: real,       // config.imag_gradient_mix
    rewardEma: bool,             // config.reward_EMA
    actorEntropy: real,          // config.actor["entropy"]
    slowTarget: bool,            // config.critic["slow_target"]
    slowTargetUpdate: int,       // config.critic["slow_target_update"]
    slowTargetFraction: real,    // config.critic["slow_target_fraction"]
    mfPolicyFreq: int            // config.mf_policy_freq
  )
}
