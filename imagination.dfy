/** The imagination rollout of `ImagBehavior._imagine` (models.py:352-370).
    The latent state of one batch element is an abstract `S`; the dynamics
    and the actor act on the whole flattened batch (`seq<S>`) and are
    parameters: `getFeat` for `dynamics.get_feat`, `imgStep` for
    `dynamics.img_step`, and `sample(t, feat)` for the action the policy
    samples at step `t` (the random draw itself is not modelled). */
module Imagination {

  /** Merge the two leading axes, row-major: `x.reshape([-1] + shape[2:])`. */
  function Flatten<S>(start: seq<seq<S>>): seq<S>
  {
    if start == [] then [] else start[0] + Flatten(start[1..])
  }

  predicate Rectangular<S>(start: seq<seq<S>>, cols: nat)
  {
    forall b :: 0 <= b < |start| ==> |start[b]| == cols
  }

  /** Flattening a `rows x cols` start keeps every state, at row-major
      position `b * cols + t`. */
  lemma {:induction false} FlattenIndex<S>(start: seq<seq<S>>, cols: nat, b: nat, t: nat)
    requires Rectangular(start, cols) && b < |start| && t < cols
    ensures |Flatten(start)| == |start| * cols
    ensures b * cols + t < |Flatten(start)| && Flatten(start)[b * cols + t] == start[b][t]
  {
    FlattenLength(start, cols);
    if b > 0 {
      FlattenIndex(start[1..], cols, b - 1, t);
      assert b * cols + t == cols + ((b - 1) * cols + t);
    }
  }

  lemma {:induction false} FlattenLength<S>(start: seq<seq<S>>, cols: nat)
    requires Rectangular(start, cols)
    ensures |Flatten(start)| == |start| * cols
  {
    if start != [] {
      FlattenLength(start[1..], cols);
      assert |start| * cols == cols + (|start| - 1) * cols;
    }
  }

  /** `tools.static_scan(step, [arange(n)], (state, None, None))`: the
      successor states, features and actions of `n` steps from `state`,
      whose first step has index `t`. */
  function Scan<B, F, A>(state: B, t: nat, n: nat,
                         getFeat: B -> F, sample: (nat, F) -> A, imgStep: (B, A) -> B)
    : (r: (seq<B>, seq<F>, seq<A>))
    ensures |r.0| == n && |r.1| == n && |r.2| == n
    decreases n
  {
    if n == 0 then ([], [], [])
    else
      var feat := getFeat(state);
      var action := sample(t, feat);
      var succ := imgStep(state, action);
      var rest := Scan(succ, t + 1, n - 1, getFeat, sample, imgStep);
      ([succ] + rest.0, [feat] + rest.1, [action] + rest.2)
  }

  /** Step `k` of the scan: its feature is read from the state it starts
      in (the seed for `k = 0`, else the previous successor), its action is
      sampled from that feature, and its successor is `img_step` of the two. */
  lemma {:induction false} ScanAt<B, F, A>(state: B, t: nat, n: nat, k: nat,
                                           getFeat: B -> F, sample: (nat, F) -> A, imgStep: (B, A) -> B)
    requires k < n
    ensures var r := Scan(state, t, n, getFeat, sample, imgStep);
      var from := if k == 0 then state else r.0[k - 1];
      && r.1[k] == getFeat(from)
      && r.2[k] == sample(t + k, r.1[k])
      && r.0[k] == imgStep(from, r.2[k])
    decreases k
  {
    if k > 0 {
      var succ := imgStep(state, sample(t, getFeat(state)));
      ScanAt(succ, t + 1, n - 1, k - 1, getFeat, sample, imgStep);
    }
  }

  /** The scan runs strictly in order: a shorter scan is a prefix of a
      longer one from the same seed. */
  lemma {:induction false} ScanPrefix<B, F, A>(state: B, t: nat, n: nat, m: nat,
                                               getFeat: B -> F, sample: (nat, F) -> A, imgStep: (B, A) -> B)
    requires m <= n
    ensures var long := Scan(state, t, n, getFeat, sample, imgStep);
      var short := Scan(state, t, m, getFeat, sample, imgStep);
      short.0 == long.0[..m] && short.1 == long.1[..m] && short.2 == long.2[..m]
    decreases m
  {
    if m > 0 {
      var succ := imgStep(state, sample(t, getFeat(state)));
      ScanPrefix(succ, t + 1, n - 1, m - 1, getFeat, sample, imgStep);
    }
  }

  datatype Rollout<B, F, A> = Rollout(feats: seq<F>, states: seq<B>, actions: seq<A>)

  /** `_imagine`: flatten the start, scan `horizon` steps, and report the
      states each step started from, `[start] + succ[:-1]`. */
  function Imagine<S, F, A>(start: seq<seq<S>>, horizon: nat,
                            getFeat: seq<S> -> F, sample: (nat, F) -> A, imgStep: (seq<S>, A) -> seq<S>)
    : Rollout<seq<S>, F, A>
    requires horizon >= 1
  {
    var flat := Flatten(start);
    var r := Scan(flat, 0, horizon, getFeat, sample, imgStep);
    Rollout(r.1, [flat] + r.0[..horizon - 1], r.2)
  }

  /** The rollout has `horizon` features, states and actions (not
      `horizon + 1`: the last successor is dropped); it starts from the
      flattened start; each feature is read from the state of its step,
      each action sampled from that feature, and each next state is
      `img_step` of the previous state and action. */
  lemma ImagineSteps<S, F, A>(start: seq<seq<S>>, horizon: nat,
                              getFeat: seq<S> -> F, sample: (nat, F) -> A, imgStep: (seq<S>, A) -> seq<S>)
    requires horizon >= 1
    ensures var r := Imagine(start, horizon, getFeat, sample, imgStep);
      && |r.feats| == |r.states| == |r.actions| == horizon
      && r.states[0] == Flatten(start)
      && (forall t :: 0 <= t < horizon ==>
            r.feats[t] == getFeat(r.states[t]) && r.actions[t] == sample(t, r.feats[t]))
      && (forall t :: 0 <= t < horizon - 1 ==> r.states[t + 1] == imgStep(r.states[t], r.actions[t]))
  {
    var flat := Flatten(start);
    var s := Scan(flat, 0, horizon, getFeat, sample, imgStep);
    var r := Imagine(start, horizon, getFeat, sample, imgStep);
    forall t | 0 <= t < horizon
      ensures r.feats[t] == getFeat(r.states[t]) && r.actions[t] == sample(t, r.feats[t])
      ensures t < horizon - 1 ==> r.states[t + 1] == imgStep(r.states[t], r.actions[t])
    {
      ScanAt(flat, 0, horizon, t, getFeat, sample, imgStep);
      assert r.states[t] == if t == 0 then flat else s.0[t - 1];
      if t < horizon - 1 {
        assert r.states[t + 1] == s.0[t];
      }
    }
  }

  /** A longer horizon extends the rollout without changing its first steps. */
  lemma ImaginePrefix<S, F, A>(start: seq<seq<S>>, h1: nat, h2: nat,
                               getFeat: seq<S> -> F, sample: (nat, F) -> A, imgStep: (seq<S>, A) -> seq<S>)
    requires 1 <= h1 <= h2
    ensures var short := Imagine(start, h1, getFeat, sample, imgStep);
      var long := Imagine(start, h2, getFeat, sample, imgStep);
      short.feats == long.feats[..h1] && short.states == long.states[..h1] && short.actions == long.actions[..h1]
  {
    var flat := Flatten(start);
    ScanPrefix(flat, 0, h2, h1, getFeat, sample, imgStep);
    var long := Scan(flat, 0, h2, getFeat, sample, imgStep);
    var short := Scan(flat, 0, h1, getFeat, sample, imgStep);
    assert short.0[..h1 - 1] == long.0[..h1 - 1];
    assert ([flat] + long.0[..h2 - 1])[..h1] == [flat] + long.0[..h1 - 1];
  }
}
