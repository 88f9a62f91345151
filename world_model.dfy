/** The bookkeeping of `WorldModel` (models.py:31-189): the feature width
    and gradient-head check of `__init__`, the loss combination of
    `_train`, and `preprocess`. Encoder, dynamics, heads, log-likelihoods
    and the optimizer are not modelled; per-head losses are inputs. */
module WorldModel {
  import opened Wrappers
  import opened Configuration
  import Targets
  import Imagination

  /** Width of the feature vector (models.py:58-61, repeated at 221-224 and
      449-452): `dyn_discrete` is tested for truthiness, so zero means a
      continuous latent. */
  function FeatSize(stoch: nat, deter: nat, discrete: nat): nat
  {
    if discrete != 0 then stoch * discrete + deter else stoch + deter
  }

  /** The width is that of the feature `get_feat` builds: the flattened
      `stoch x discrete` one-hot grid (or the `stoch`-wide vector) followed
      by the `deter`-wide recurrent state. */
  lemma FeatSizeIsFeatureWidth(stochGrid: seq<seq<real>>, stochVec: seq<real>, deterVec: seq<real>, discrete: nat)
    requires discrete != 0 ==> Imagination.Rectangular(stochGrid, discrete)
    ensures discrete != 0 ==>
      |Imagination.Flatten(stochGrid) + deterVec| == FeatSize(|stochGrid|, |deterVec|, discrete)
    ensures discrete == 0 ==> |stochVec + deterVec| == FeatSize(|stochVec|, |deterVec|, discrete)
  {
    if discrete != 0 {
      Imagination.FlattenLength(stochGrid, discrete);
    }
  }

  /** `for name in config.grad_heads: assert name in self.heads, name`
      (models.py:89-90): `None` when every name is a head, else the first
      name that is not, which the assertion reports. */
  method CheckGradHeads(gradHeads: seq<string>, heads: set<string>) returns (missing: Option<string>)
    ensures missing.None? <==> forall i :: 0 <= i < |gradHeads| ==> gradHeads[i] in heads
    ensures missing.Some? ==>
      (exists i :: 0 <= i < |gradHeads| && gradHeads[i] == missing.value
        && missing.value !in heads && forall j :: 0 <= j < i ==> gradHeads[j] in heads)
  {
    var i := 0;
    while i < |gradHeads|
      invariant 0 <= i <= |gradHeads|
      invariant forall j :: 0 <= j < i ==> gradHeads[j] in heads
    {
      if gradHeads[i] !in heads {
        return Some(gradHeads[i]);
      }
      i := i + 1;
    }
    return None;
  }

  /** `self._scales` (models.py:105-108): only reward and cont are configured. */
  function LossScales(cfg: Config): map<string, real>
  {
    map["reward" := cfg.rewardLossScale, "cont" := cfg.contLossScale]
  }

  /** `self._scales.get(name, 1.0)`. */
  function ScaleOf(name: string, scales: map<string, real>): real
  {
    if name in scales then scales[name] else 1.0
  }

  /** Reward and cont losses are scaled by their configured scales, every
      other head (the decoder's image loss among them) by 1.0. */
  lemma ConfiguredScales(cfg: Config, name: string)
    ensures ScaleOf("reward", LossScales(cfg)) == cfg.rewardLossScale
    ensures ScaleOf("cont", LossScales(cfg)) == cfg.contLossScale
    ensures name != "reward" && name != "cont" ==> ScaleOf(name, LossScales(cfg)) == 1.0
  {
  }

  /** A tensor: its shape and its values in row-major order. */
  datatype Tensor = Tensor(shape: seq<nat>, values: seq<real>)

  function Product(dims: seq<nat>): nat
  {
    if dims == [] then 1 else dims[0] * Product(dims[1..])
  }

  predicate WellFormed(x: Tensor)
  {
    |x.values| == Product(x.shape)
  }

  /** The shape assertions of models.py:129 and 143. */
  datatype LossError = KlShape(shape: seq<nat>) | HeadShape(name: string, shape: seq<nat>)

  /** The first per-head loss whose shape is not `grid`, in head order. */
  function FirstBadHead(grid: seq<nat>, heads: seq<(string, Tensor)>): (r: Option<(string, seq<nat>)>)
    ensures r.None? <==> forall k :: 0 <= k < |heads| ==> heads[k].1.shape == grid
    ensures r.Some? ==> exists k :: (0 <= k < |heads| && heads[k].0 == r.value.0 && heads[k].1.shape == r.value.1
      && r.value.1 != grid && forall j :: 0 <= j < k ==> heads[j].1.shape == grid)
  {
    if heads == [] then None
    else if heads[0].1.shape != grid then Some((heads[0].0, heads[0].1.shape))
    else FirstBadHead(grid, heads[1..])
  }

  /** `sum(scaled.values())` at one position of the (batch, time) grid. */
  function ScaledSum(heads: seq<(string, Tensor)>, scales: map<string, real>, i: nat): real
    requires forall k :: 0 <= k < |heads| ==> i < |heads[k].1.values|
  {
    if heads == [] then 0.0
    else ScaleOf(heads[0].0, scales) * heads[0].1.values[i] + ScaledSum(heads[1..], scales, i)
  }

  /** The plain sum, for heads that carry no configured scale. */
  function PlainSum(heads: seq<(string, Tensor)>, i: nat): real
    requires forall k :: 0 <= k < |heads| ==> i < |heads[k].1.values|
  {
    if heads == [] then 0.0 else heads[0].1.values[i] + PlainSum(heads[1..], i)
  }

  /** `model_loss` (models.py:129, 141-149): check the KL loss's shape and
      then each head's, in order, against `embed.shape[:2]`; then add the
      scaled head losses and the KL loss position by position. */
  function ModelLoss(batch: nat, time: nat, kl: Tensor, heads: seq<(string, Tensor)>, scales: map<string, real>)
    : (r: Result<seq<real>, LossError>)
    requires WellFormed(kl) && forall k :: 0 <= k < |heads| ==> WellFormed(heads[k].1)
    ensures r.Success? <==> kl.shape == [batch, time] && forall k :: 0 <= k < |heads| ==> heads[k].1.shape == [batch, time]
    ensures r.Success? ==> |r.value| == batch * time
    ensures kl.shape != [batch, time] ==> r == Failure(KlShape(kl.shape))
    ensures kl.shape == [batch, time] && r.Failure? ==>
      r.error.HeadShape? && FirstBadHead([batch, time], heads) == Some((r.error.name, r.error.shape))
    ensures r.Success? ==>
      |kl.values| == batch * time && (forall k :: 0 <= k < |heads| ==> |heads[k].1.values| == batch * time)
    ensures r.Success? ==>
      forall i :: 0 <= i < batch * time ==> r.value[i] == ScaledSum(heads, scales, i) + kl.values[i]
  {
    var grid := [batch, time];
    GridSize(batch, time);
    if kl.shape != grid then Failure(KlShape(kl.shape))
    else match FirstBadHead(grid, heads)
      case Some(bad) => Failure(HeadShape(bad.0, bad.1))
      case None =>
        assert forall k :: 0 <= k < |heads| ==> heads[k].1.shape == grid && WellFormed(heads[k].1);
        assert forall k :: 0 <= k < |heads| ==> |heads[k].1.values| == batch * time;
        Success(seq(batch * time, i requires 0 <= i < batch * time => ScaledSum(heads, scales, i) + kl.values[i]))
  }

  lemma GridSize(batch: nat, time: nat)
    ensures Product([batch, time]) == batch * time
  {
    assert [batch, time][1..] == [time];
    assert [time][1..] == [];
    assert Product([time]) == time;
    assert Product([batch, time]) == batch * Product([time]);
  }

  /** Heads without a configured scale weigh 1.0: when no head is scaled the
      model loss is the plain sum of the head losses plus the KL loss. */
  lemma {:induction false} UnscaledHeadsSumPlainly(heads: seq<(string, Tensor)>, scales: map<string, real>, i: nat)
    requires forall k :: 0 <= k < |heads| ==> i < |heads[k].1.values| && heads[k].0 !in scales
    ensures ScaledSum(heads, scales, i) == PlainSum(heads, i)
  {
    if heads != [] {
      UnscaledHeadsSumPlainly(heads[1..], scales, i);
    }
  }

  /** The head sum is additive over any split of the heads, so each head
      contributes its own scaled loss independently of the others. */
  lemma {:induction false} ScaledSumSplit(a: seq<(string, Tensor)>, b: seq<(string, Tensor)>, scales: map<string, real>, i: nat)
    requires forall k :: 0 <= k < |a| ==> i < |a[k].1.values|
    requires forall k :: 0 <= k < |b| ==> i < |b[k].1.values|
    ensures ScaledSum(a + b, scales, i) == ScaledSum(a, scales, i) + ScaledSum(b, scales, i)
  {
    var ab := a + b;
    assert forall k :: 0 <= k < |ab| ==> i < |ab[k].1.values|;
    if a == [] {
      assert ab == b;
    } else {
      assert ab[0] == a[0];
      assert ab[1..] == a[1..] + b;
      ScaledSumSplit(a[1..], b, scales, i);
    }
  }

  /** A head whose scale is zero adds nothing to the model loss. */
  lemma ZeroScaledHeadAddsNothing(a: seq<(string, Tensor)>, h: (string, Tensor), scales: map<string, real>, i: nat)
    requires forall k :: 0 <= k < |a| ==> i < |a[k].1.values|
    requires i < |h.1.values| && ScaleOf(h.0, scales) == 0.0
    ensures ScaledSum(a + [h], scales, i) == ScaledSum(a, scales, i)
  {
    ScaledSumSplit(a, [h], scales, i);
    assert [h][1..] == [];
    assert ScaledSum([h], scales, i) == 0.0 * h.1.values[i] + ScaledSum([], scales, i);
  }

  /** `image / 255.0`. */
  function PixelScale(image: seq<real>): seq<real>
  {
    seq(|image|, i requires 0 <= i < |image| => image[i] / 255.0)
  }

  /** `1.0 - is_terminal`. */
  function Continuation(isTerminal: seq<real>): seq<real>
  {
    seq(|isTerminal|, i requires 0 <= i < |isTerminal| => 1.0 - isTerminal[i])
  }

  /** Pixels in [0, 255] land in [0, 1]; terminal flags in {0, 1} become
      continuation flags in {0, 1}, one exactly where the other is zero. */
  lemma PreprocessRanges(image: seq<real>, isTerminal: seq<real>)
    requires forall i :: 0 <= i < |image| ==> 0.0 <= image[i] <= 255.0
    requires forall i :: 0 <= i < |isTerminal| ==> isTerminal[i] == 0.0 || isTerminal[i] == 1.0
    ensures forall i :: 0 <= i < |image| ==> 0.0 <= PixelScale(image)[i] <= 1.0
    ensures forall i :: 0 <= i < |isTerminal| ==>
      (Continuation(isTerminal)[i] == 1.0 <==> isTerminal[i] == 0.0)
      && (Continuation(isTerminal)[i] == 0.0 <==> isTerminal[i] == 1.0)
  {
  }

  /** The failures of `preprocess`: a `KeyError` for a missing image, an
      `AssertionError` for a missing `is_first` or `is_terminal`. */
  datatype PreprocessError = MissingKey(key: string) | AssertionFailed(key: string)

  /** `obs["discount"] *= discount` on the caller's array. */
  method ScaleInPlace(a: array<real>, c: real)
    modifies a
    ensures a[..] == Targets.ScaleAll(c, old(a[..]))
  {
    for i := 0 to a.Length
      invariant forall k :: 0 <= k < i ==> a[k] == c * old(a[k])
      invariant forall k :: i <= k < a.Length ==> a[k] == old(a[k])
    {
      a[i] := a[i] * c;
    }
    assert forall k :: 0 <= k < a.Length ==> a[..][k] == Targets.ScaleAll(c, old(a[..]))[k];
  }

  /** `preprocess` (models.py:176-189). The dict copy is shallow, so the
      in-place discount scaling acts on the caller's array; it happens
      before the two key assertions, so it also happens when they fail.
      Values read after it (the discount, a terminal array shared with it)
      are read scaled; the image is copied before it. */
  method Preprocess(obs: map<string, array<real>>, gamma: real)
    returns (r: Result<map<string, seq<real>>, PreprocessError>)
    modifies if "discount" in obs then {obs["discount"]} else {}
    ensures "discount" in obs ==>
      (obs["discount"][..] ==
        if "image" in obs then Targets.ScaleAll(gamma, old(obs["discount"][..])) else old(obs["discount"][..]))
    ensures "image" !in obs ==> r == Failure(MissingKey("image"))
    ensures "image" in obs && "is_first" !in obs ==> r == Failure(AssertionFailed("is_first"))
    ensures "image" in obs && "is_first" in obs && "is_terminal" !in obs ==> r == Failure(AssertionFailed("is_terminal"))
    ensures r.Success? <==> "image" in obs && "is_first" in obs && "is_terminal" in obs
    ensures r.Success? ==>
      && r.value.Keys == obs.Keys + {"cont"}
      && r.value["image"] == PixelScale(old(obs["image"][..]))
      && r.value["cont"] == Continuation(obs["is_terminal"][..])
      && forall k :: k in obs && k != "image" && k != "cont" ==> r.value[k] == obs[k][..]
  {
    if "image" !in obs {
      return Failure(MissingKey("image"));
    }
    var image := PixelScale(obs["image"][..]);
    if "discount" in obs {
      ScaleInPlace(obs["discount"], gamma);
    }
    if "is_first" !in obs {
      return Failure(AssertionFailed("is_first"));
    }
    if "is_terminal" !in obs {
      return Failure(AssertionFailed("is_terminal"));
    }
    var out := map k | k in obs :: obs[k][..];
    out := out["image" := image]["cont" := Continuation(obs["is_terminal"][..])];
    return Success(out);
  }
}
