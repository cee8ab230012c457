/** Post-processing of a successful fit: the per-voxel parameters are clamped,
    written back into full-volume maps (zero off the mask), kep is derived from
    Ktrans and ve, Ktrans and kep are capped at a percentile of themselves, and
    the fitted curves are converted back to signal. */
module ResultMaps {
  import opened VoxelMask
  import SignalNorm
  import FitDispatch

  /** A boolean used as a number (numpy multiplies by a comparison). */
  function Ind(b: bool): real
  {
    if b then 1.0 else 0.0
  }

  /** The upper clamp of Ktrans and ve. Both comparisons are strict, so a value
      of exactly 2 passes neither and becomes 0; negative values are kept. */
  function ClampParam(x: real): (r: real)
    ensures x < 2.0 ==> r == x
    ensures x > 2.0 ==> r == 2.0
    ensures x == 2.0 ==> r == 0.0
  {
    x * Ind(x < 2.0) + 2.0 * Ind(x > 2.0)
  }

  /** Negative values become zero (`ve1 *= (ve1 > 0)`). */
  function FloorZero(x: real): (r: real)
    ensures r >= 0.0
    ensures x >= 0.0 ==> r == x
    ensures x <= 0.0 ==> r == 0.0
  {
    x * Ind(x > 0.0)
  }

  /** Ktrans / (ve + 0.001), where a quotient that is not finite is replaced
      by 0; over the reals only a zero denominator produces one. */
  function Ratio(ktrans: real, ve: real): real
  {
    if ve + SignalNorm.Eps == 0.0 then 0.0 else ktrans / (ve + SignalNorm.Eps)
  }

  /** kep: the ratio with negatives zeroed, then clamped at 2 with a non-strict
      comparison, so it always lies in [0, 2]. */
  function Kep(ktrans: real, ve: real): (r: real)
    ensures 0.0 <= r <= 2.0
    ensures Ratio(ktrans, ve) <= 0.0 ==> r == 0.0
    ensures 0.0 < Ratio(ktrans, ve) < 2.0 ==> r == Ratio(ktrans, ve)
    ensures Ratio(ktrans, ve) >= 2.0 ==> r == 2.0
  {
    var q := Ratio(ktrans, ve);
    var z := q * Ind(q > 0.0);
    z * Ind(z < 2.0) + 2.0 * Ind(z >= 2.0)
  }

  /** For ve as the model produces it (never negative) the denominator is at
      least 0.001, and kep is zero exactly where Ktrans is not positive. */
  lemma KepPositive(ktrans: real, ve: real)
    requires ve >= 0.0
    ensures Ratio(ktrans, ve) == ktrans / (ve + SignalNorm.Eps)
    ensures Kep(ktrans, ve) > 0.0 <==> ktrans > 0.0
  {
    var d := ve + SignalNorm.Eps;
    if ktrans > 0.0 {
      assert ktrans / d > 0.0;
    } else {
      assert ktrans / d <= 0.0;
    }
  }

  // --------------------------------------------------------- full maps

  function Zeros(n: nat): seq<real>
  {
    seq(n, _ => 0.0)
  }

  function Clamped(xs: seq<real>): (r: seq<real>)
    ensures |r| == |xs|
  {
    seq(|xs|, i requires 0 <= i < |xs| => ClampParam(xs[i]))
  }

  function Floored(xs: seq<real>): (r: seq<real>)
    ensures |r| == |xs|
  {
    seq(|xs|, i requires 0 <= i < |xs| => FloorZero(xs[i]))
  }

  function KtransColumn(ps: seq<FitDispatch.Params>): (r: seq<real>)
    ensures |r| == |ps|
  {
    seq(|ps|, i requires 0 <= i < |ps| => ps[i].ktrans)
  }

  function VeColumn(ps: seq<FitDispatch.Params>): (r: seq<real>)
    ensures |r| == |ps|
  {
    seq(|ps|, i requires 0 <= i < |ps| => ps[i].ve)
  }

  function OffsetColumn(ps: seq<FitDispatch.Params>): (r: seq<real>)
    ensures |r| == |ps|
  {
    seq(|ps|, i requires 0 <= i < |ps| => ps[i].offset)
  }

  function VpColumn(ps: seq<FitDispatch.Params>): (r: seq<real>)
    ensures |r| == |ps|
  {
    seq(|ps|, i requires 0 <= i < |ps| => ps[i].vp)
  }

  /** Clamped Ktrans, zero off the mask. */
  function KtransMap(ps: seq<FitDispatch.Params>, mask: seq<bool>): (r: seq<real>)
    requires |ps| == Count(mask)
    ensures |r| == |mask|
  {
    Scatter(Clamped(KtransColumn(ps)), mask, 0.0)
  }

  /** Clamped ve, zero off the mask, then floored at zero over the whole map. */
  function VeMap(ps: seq<FitDispatch.Params>, mask: seq<bool>): (r: seq<real>)
    requires |ps| == Count(mask)
    ensures |r| == |mask|
  {
    Floored(Scatter(Clamped(VeColumn(ps)), mask, 0.0))
  }

  /** kep over the whole map, from the Ktrans and ve maps. */
  function KepMap(kt: seq<real>, ve: seq<real>): (r: seq<real>)
    requires |kt| == |ve|
    ensures |r| == |kt|
  {
    seq(|kt|, i requires 0 <= i < |kt| => Kep(kt[i], ve[i]))
  }

  /** The fitted curves converted back to signal (multiplied by the voxel's
      baseline after adding 1), zero curves off the mask. */
  function CurveMap(curves: seq<seq<real>>, baseline: seq<real>, mask: seq<bool>, samples: nat): (r: seq<seq<real>>)
    requires |curves| == |baseline| == Count(mask)
    ensures |r| == |mask|
  {
    Scatter(seq(|curves|, i requires 0 <= i < |curves| => SignalNorm.ReconstructCurve(curves[i], baseline[i])),
            mask, Zeros(samples))
  }

  /** Every value above p becomes p. */
  function Threshold(vol: seq<real>, p: real): (r: seq<real>)
    ensures |r| == |vol|
  {
    seq(|vol|, i requires 0 <= i < |vol| => if vol[i] > p then p else vol[i])
  }

  /** Voxel k of each parameter map: on the mask, the processed parameter of
      the selected voxel of the same rank; off the mask, zero. */
  lemma MapsAt(ps: seq<FitDispatch.Params>, mask: seq<bool>, k: nat)
    requires |ps| == Count(mask) && k < |mask|
    ensures mask[k] ==> Count(mask[..k]) < |ps|
    ensures mask[k] ==>
      var v := ps[Count(mask[..k])];
      KtransMap(ps, mask)[k] == ClampParam(v.ktrans) &&
      VeMap(ps, mask)[k] == FloorZero(ClampParam(v.ve)) &&
      Scatter(OffsetColumn(ps), mask, 0.0)[k] == v.offset &&
      Scatter(VpColumn(ps), mask, 0.0)[k] == v.vp
    ensures !mask[k] ==>
      KtransMap(ps, mask)[k] == 0.0 && VeMap(ps, mask)[k] == 0.0 &&
      Scatter(OffsetColumn(ps), mask, 0.0)[k] == 0.0 && Scatter(VpColumn(ps), mask, 0.0)[k] == 0.0
  {
    ScatterAt(Clamped(KtransColumn(ps)), mask, 0.0, k);
    ScatterAt(Clamped(VeColumn(ps)), mask, 0.0, k);
    ScatterAt(OffsetColumn(ps), mask, 0.0, k);
    ScatterAt(VpColumn(ps), mask, 0.0, k);
  }

  /** The curve of voxel k: the reconstructed curve of its selected voxel, or
      all zeros off the mask. */
  lemma CurveAt(curves: seq<seq<real>>, baseline: seq<real>, mask: seq<bool>, samples: nat, k: nat)
    requires |curves| == |baseline| == Count(mask) && k < |mask|
    ensures mask[k] ==> Count(mask[..k]) < |curves|
    ensures mask[k] ==>
      CurveMap(curves, baseline, mask, samples)[k] ==
        SignalNorm.ReconstructCurve(curves[Count(mask[..k])], baseline[Count(mask[..k])])
    ensures !mask[k] ==> CurveMap(curves, baseline, mask, samples)[k] == Zeros(samples)
  {
    var sig := seq(|curves|, i requires 0 <= i < |curves| => SignalNorm.ReconstructCurve(curves[i], baseline[i]));
    ScatterAt(sig, mask, Zeros(samples), k);
  }

  /** ve ends in [0, 2]; Ktrans is at most 2 but keeps negative values. */
  lemma ParamBounds(ps: seq<FitDispatch.Params>, mask: seq<bool>)
    requires |ps| == Count(mask)
    ensures forall k :: 0 <= k < |mask| ==> 0.0 <= VeMap(ps, mask)[k] <= 2.0
    ensures forall k :: 0 <= k < |mask| ==> KtransMap(ps, mask)[k] <= 2.0
  {
    forall k | 0 <= k < |mask|
      ensures 0.0 <= VeMap(ps, mask)[k] <= 2.0 && KtransMap(ps, mask)[k] <= 2.0
    {
      MapsAt(ps, mask, k);
    }
  }

  /** A negative Ktrans survives the clamp: its map is not bounded below. */
  lemma KtransKeepsNegative()
    ensures KtransMap([FitDispatch.Params(-1.0, 0.0, 0.0, 0.0)], AllVoxels(1))[0] == -1.0
  {
    MapsAt([FitDispatch.Params(-1.0, 0.0, 0.0, 0.0)], AllVoxels(1), 0);
  }

  /** kep lies in [0, 2] everywhere and is zero off the mask. */
  lemma KepBounds(ps: seq<FitDispatch.Params>, mask: seq<bool>)
    requires |ps| == Count(mask)
    ensures forall k :: 0 <= k < |mask| ==> 0.0 <= KepMap(KtransMap(ps, mask), VeMap(ps, mask))[k] <= 2.0
    ensures forall k :: 0 <= k < |mask| && !mask[k] ==> KepMap(KtransMap(ps, mask), VeMap(ps, mask))[k] == 0.0
  {
    forall k | 0 <= k < |mask| && !mask[k]
      ensures KepMap(KtransMap(ps, mask), VeMap(ps, mask))[k] == 0.0
    {
      MapsAt(ps, mask, k);
    }
  }

  /** After the cap nothing exceeds p, values at or below p are unchanged,
      and capping twice is capping once. */
  lemma ThresholdCaps(vol: seq<real>, p: real)
    ensures forall i :: 0 <= i < |vol| ==> Threshold(vol, p)[i] <= p
    ensures forall i :: 0 <= i < |vol| && vol[i] <= p ==> Threshold(vol, p)[i] == vol[i]
    ensures forall i :: 0 <= i < |vol| && vol[i] > p ==> Threshold(vol, p)[i] == p
    ensures Threshold(Threshold(vol, p), p) == Threshold(vol, p)
  {
  }

  /** A zero (an off-mask voxel) survives the cap exactly when p is not negative. */
  lemma ThresholdZero(vol: seq<real>, p: real, i: nat)
    requires i < |vol| && vol[i] == 0.0
    ensures Threshold(vol, p)[i] == 0.0 <==> p >= 0.0
  {
  }

  // ------------------------------------------------------- in-place steps

  /** `ve1 *= (ve1 > 0)`: negative entries become zero, in place. */
  method FloorInPlace(a: array<real>)
    modifies a
    ensures a[..] == Floored(old(a[..]))
  {
    for i := 0 to a.Length
      invariant forall j :: 0 <= j < i ==> a[j] == FloorZero(old(a[j]))
      invariant forall j :: i <= j < a.Length ==> a[j] == old(a[j])
    {
      a[i] := a[i] * Ind(a[i] > 0.0);
    }
  }

  /** kep of every voxel, from the Ktrans and ve arrays, into a new array. */
  method KepArray(kt: array<real>, ve: array<real>) returns (kep: array<real>)
    requires kt.Length == ve.Length
    ensures fresh(kep)
    ensures kep[..] == KepMap(kt[..], ve[..])
  {
    kep := new real[kt.Length];
    for i := 0 to kt.Length
      invariant forall j :: 0 <= j < i ==> kep[j] == Kep(kt[j], ve[j])
    {
      var q := Ratio(kt[i], ve[i]);
      q := q * Ind(q > 0.0);
      kep[i] := q * Ind(q < 2.0) + 2.0 * Ind(q >= 2.0);
    }
  }

  /** `vol[vol > p] = p`, in place. */
  method CapInPlace(a: array<real>, p: real)
    modifies a
    ensures a[..] == Threshold(old(a[..]), p)
  {
    for i := 0 to a.Length
      invariant forall j :: 0 <= j < i ==> a[j] == (if old(a[j]) > p then p else old(a[j]))
      invariant forall j :: i <= j < a.Length ==> a[j] == old(a[j])
    {
      if a[i] > p {
        a[i] := p;
      }
    }
  }

  // ------------------------------------------------------------ publishing

  datatype Volume = Scalar(values: seq<real>) | Series(curves: seq<seq<real>>)

  /** One addition to the data store: name, shape, data, and whether it
      becomes the current data set. */
  datatype Write = Write(name: string, shape: seq<nat>, data: Volume, makeCurrent: bool)

  /** The six names, in the order they are written. */
  function OutputNames(suffix: string): (names: seq<string>)
    ensures |names| == 6
  {
    ["ktrans" + suffix, "ve" + suffix, "kep" + suffix, "offset" + suffix, "vp" + suffix,
     "model_curves" + suffix]
  }

  /** Whatever the suffix, the six outputs have six different names. */
  lemma OutputNamesDistinct(suffix: string)
    ensures forall i, j :: 0 <= i < j < 6 ==> OutputNames(suffix)[i] != OutputNames(suffix)[j]
  {
    var n := OutputNames(suffix);
    assert n[0][0] == 'k' && n[0][1] == 't';
    assert n[1][0] == 'v' && n[1][1] == 'e';
    assert n[2][0] == 'k' && n[2][1] == 'e';
    assert n[3][0] == 'o';
    assert n[4][0] == 'v' && n[4][1] == 'p';
    assert n[5][0] == 'm';
  }

  /** What the engine hands back for a 4D data set of the given shape: one
      parameter row and one fitted curve of `shape[3]` samples per selected
      voxel, with a baseline for each. */
  predicate FitShaped(fit: FitDispatch.Output, mask: seq<bool>, baseline: seq<real>, shape: seq<nat>)
  {
    |fit.params| == |fit.curves| == |baseline| == Count(mask) && |shape| == 4 &&
    forall i :: 0 <= i < |fit.curves| ==> |fit.curves[i]| == shape[3]
  }

  /** p lies between the smallest and the largest value of v. */
  predicate Within(v: seq<real>, p: real)
  {
    (exists i :: 0 <= i < |v| && v[i] <= p) && (exists j :: 0 <= j < |v| && p <= v[j])
  }

  /** What `np.percentile` guarantees: for a percentage in [0, 100], the
      percentile of a non-empty volume lies within its range. */
  ghost predicate PercentileLike(pct: (seq<real>, real) -> real)
  {
    forall v: seq<real>, q: real :: v != [] && 0.0 <= q <= 100.0 ==> Within(v, pct(v, q))
  }

  /** Everything a successful fit adds to the data store: five maps over the
      spatial shape (the first three dimensions) and the model curves over the
      full shape, one entry per voxel. `pct(vol, q)` is the q-th percentile of
      vol; ve, offset, vp and the curves are never capped. */
  function Outputs(fit: FitDispatch.Output, mask: seq<bool>, baseline: seq<real>, shape: seq<nat>,
                   suffix: string, thresh: real, pct: (seq<real>, real) -> real): (writes: seq<Write>)
    requires FitShaped(fit, mask, baseline, shape)
    ensures |writes| == 6
    ensures forall i :: 0 <= i < 6 ==> writes[i].name == OutputNames(suffix)[i]
    ensures writes[0].makeCurrent && forall i :: 1 <= i < 6 ==> !writes[i].makeCurrent
    ensures forall i :: 0 <= i < 5 ==>
      writes[i].shape == shape[..3] && writes[i].data.Scalar? && |writes[i].data.values| == |mask|
    ensures writes[5].shape == shape && writes[5].data.Series? && |writes[5].data.curves| == |mask|
  {
    var kt := KtransMap(fit.params, mask);
    var ve := VeMap(fit.params, mask);
    var kep := KepMap(kt, ve);
    var spatial := shape[..3];
    [ Write("ktrans" + suffix, spatial, Scalar(Threshold(kt, pct(kt, thresh))), true),
      Write("ve" + suffix, spatial, Scalar(ve), false),
      Write("kep" + suffix, spatial, Scalar(Threshold(kep, pct(kep, thresh))), false),
      Write("offset" + suffix, spatial, Scalar(Scatter(OffsetColumn(fit.params), mask, 0.0)), false),
      Write("vp" + suffix, spatial, Scalar(Scatter(VpColumn(fit.params), mask, 0.0)), false),
      Write("model_curves" + suffix, shape,
            Series(CurveMap(fit.curves, baseline, mask, shape[3])), false) ]
  }

  /** `finished` builds the maps in place: scatter into zero-filled arrays,
      floor ve, derive kep, then cap Ktrans and kep at their percentiles. */
  method Publish(fit: FitDispatch.Output, mask: seq<bool>, baseline: seq<real>, shape: seq<nat>,
                 suffix: string, thresh: real, pct: (seq<real>, real) -> real) returns (writes: seq<Write>)
    requires FitShaped(fit, mask, baseline, shape)
    ensures writes == Outputs(fit, mask, baseline, shape, suffix, thresh, pct)
  {
    var params := fit.params;
    var kt := ScatterNew(Clamped(KtransColumn(params)), mask, 0.0);
    var ve := ScatterNew(Clamped(VeColumn(params)), mask, 0.0);
    FloorInPlace(ve);
    var kep := KepArray(kt, ve);
    var offset := ScatterNew(OffsetColumn(params), mask, 0.0);
    var vp := ScatterNew(VpColumn(params), mask, 0.0);
    var curves := CurveMap(fit.curves, baseline, mask, shape[3]);
    var p := pct(kt[..], thresh);
    CapInPlace(kt, p);
    p := pct(kep[..], thresh);
    CapInPlace(kep, p);
    var spatial := shape[..3];
    writes := [
      Write("ktrans" + suffix, spatial, Scalar(kt[..]), true),
      Write("ve" + suffix, spatial, Scalar(ve[..]), false),
      Write("kep" + suffix, spatial, Scalar(kep[..]), false),
      Write("offset" + suffix, spatial, Scalar(offset[..]), false),
      Write("vp" + suffix, spatial, Scalar(vp[..]), false),
      Write("model_curves" + suffix, shape, Series(curves), false)];
  }

  /** Ktrans and kep are published capped at their own percentiles (the
      uncapped kep lies in [0, 2] by KepBounds). */
  lemma OutputsCapped(fit: FitDispatch.Output, mask: seq<bool>, baseline: seq<real>, shape: seq<nat>,
                      suffix: string, thresh: real, pct: (seq<real>, real) -> real, k: nat)
    requires FitShaped(fit, mask, baseline, shape) && k < |mask|
    ensures var w := Outputs(fit, mask, baseline, shape, suffix, thresh, pct);
      var kt := KtransMap(fit.params, mask);
      var kep := KepMap(kt, VeMap(fit.params, mask));
      var pk, pe := pct(kt, thresh), pct(kep, thresh);
      w[0].data.values[k] == (if kt[k] > pk then pk else kt[k]) &&
      w[2].data.values[k] == (if kep[k] > pe then pe else kep[k])
  {
    var kt := KtransMap(fit.params, mask);
    var kep := KepMap(kt, VeMap(fit.params, mask));
    var w := Outputs(fit, mask, baseline, shape, suffix, thresh, pct);
    assert w[0].data == Scalar(Threshold(kt, pct(kt, thresh)));
    assert w[2].data == Scalar(Threshold(kep, pct(kep, thresh)));
  }

  /** A selected voxel k publishes the fit of the selected voxel of the same
      rank: Ktrans clamped (before its cap), ve clamped and floored, offset and
      vp as fitted, and the fitted curve converted back to signal. */
  lemma OutputsOnMask(fit: FitDispatch.Output, mask: seq<bool>, baseline: seq<real>, shape: seq<nat>,
                      suffix: string, thresh: real, pct: (seq<real>, real) -> real, k: nat)
    requires FitShaped(fit, mask, baseline, shape) && k < |mask| && mask[k]
    ensures Count(mask[..k]) < |fit.params|
    ensures var w := Outputs(fit, mask, baseline, shape, suffix, thresh, pct);
      var r := Count(mask[..k]);
      var v := fit.params[r];
      KtransMap(fit.params, mask)[k] == ClampParam(v.ktrans) &&
      w[1].data.values[k] == FloorZero(ClampParam(v.ve)) &&
      w[3].data.values[k] == v.offset && w[4].data.values[k] == v.vp &&
      w[5].data.curves[k] == SignalNorm.ReconstructCurve(fit.curves[r], baseline[r]) &&
      |w[5].data.curves[k]| == shape[3]
  {
    MapsAt(fit.params, mask, k);
    CurveAt(fit.curves, baseline, mask, shape[3], k);
  }

  /** A voxel outside the selection publishes zero ve, offset and vp, an all-zero
      curve, and Ktrans and kep of zero before their caps. */
  lemma OutputsOffMask(fit: FitDispatch.Output, mask: seq<bool>, baseline: seq<real>, shape: seq<nat>,
                       suffix: string, thresh: real, pct: (seq<real>, real) -> real, k: nat)
    requires FitShaped(fit, mask, baseline, shape) && k < |mask| && !mask[k]
    ensures var w := Outputs(fit, mask, baseline, shape, suffix, thresh, pct);
      var kt := KtransMap(fit.params, mask);
      kt[k] == 0.0 && KepMap(kt, VeMap(fit.params, mask))[k] == 0.0 &&
      w[1].data.values[k] == 0.0 && w[3].data.values[k] == 0.0 && w[4].data.values[k] == 0.0 &&
      w[5].data.curves[k] == Zeros(shape[3]) && |w[5].data.curves[k]| == shape[3]
  {
    MapsAt(fit.params, mask, k);
    CurveAt(fit.curves, baseline, mask, shape[3], k);
    KepBounds(fit.params, mask);
  }

  /** With a percentile that lies within its volume's range, the published
      kep stays in [0, 2] and is 0 outside the selection: the cap is itself a
      kep value, so it is never negative. */
  lemma PublishedKep(fit: FitDispatch.Output, mask: seq<bool>, baseline: seq<real>, shape: seq<nat>,
                     suffix: string, thresh: real, pct: (seq<real>, real) -> real, k: nat)
    requires FitShaped(fit, mask, baseline, shape) && k < |mask|
    requires PercentileLike(pct) && 0.0 <= thresh <= 100.0
    ensures var w := Outputs(fit, mask, baseline, shape, suffix, thresh, pct);
      0.0 <= w[2].data.values[k] <= 2.0 && (!mask[k] ==> w[2].data.values[k] == 0.0)
  {
    var kep := KepMap(KtransMap(fit.params, mask), VeMap(fit.params, mask));
    var pe := pct(kep, thresh);
    KepBounds(fit.params, mask);
    assert Within(kep, pe);
    var j :| 0 <= j < |kep| && pe <= kep[j];
    var i :| 0 <= i < |kep| && kep[i] <= pe;
    assert 0.0 <= pe <= 2.0;
    OutputsCapped(fit, mask, baseline, shape, suffix, thresh, pct, k);
  }

  /** Outside the selection the published Ktrans is 0 exactly when the Ktrans
      percentile is not negative (a negative cap replaces the zeros). */
  lemma PublishedKtransOffMask(fit: FitDispatch.Output, mask: seq<bool>, baseline: seq<real>, shape: seq<nat>,
                               suffix: string, thresh: real, pct: (seq<real>, real) -> real, k: nat)
    requires FitShaped(fit, mask, baseline, shape) && k < |mask| && !mask[k]
    ensures var w := Outputs(fit, mask, baseline, shape, suffix, thresh, pct);
      w[0].data.values[k] == 0.0 <==> pct(KtransMap(fit.params, mask), thresh) >= 0.0
  {
    MapsAt(fit.params, mask, k);
    OutputsCapped(fit, mask, baseline, shape, suffix, thresh, pct, k);
  }

  /** Every voxel selected and every voxel fitted to Ktrans 1.5, ve 0.3,
      offset 0.1 and vp 0.05: the Ktrans, ve, offset and vp maps are uniform,
      kep = 1.5 / 0.301 is clamped to 2 everywhere, and a cap at the (uniform)
      percentile changes nothing. */
  lemma UniformFit(n: nat)
    ensures
      var ps := seq(n, _ => FitDispatch.Params(1.5, 0.3, 0.1, 0.05));
      var mask := AllVoxels(n);
      var kt := KtransMap(ps, mask);
      var kep := KepMap(kt, VeMap(ps, mask));
      (forall k :: 0 <= k < n ==>
         kt[k] == 1.5 && VeMap(ps, mask)[k] == 0.3 && kep[k] == 2.0 &&
         Scatter(OffsetColumn(ps), mask, 0.0)[k] == 0.1 &&
         Scatter(VpColumn(ps), mask, 0.0)[k] == 0.05) &&
      Threshold(kt, 1.5) == kt && Threshold(kep, 2.0) == kep
  {
    var ps := seq(n, _ => FitDispatch.Params(1.5, 0.3, 0.1, 0.05));
    var mask := AllVoxels(n);
    assert 1.5 / (0.3 + SignalNorm.Eps) >= 2.0;
    forall k | 0 <= k < n
      ensures KtransMap(ps, mask)[k] == 1.5 && VeMap(ps, mask)[k] == 0.3
      ensures Scatter(OffsetColumn(ps), mask, 0.0)[k] == 0.1 && Scatter(VpColumn(ps), mask, 0.0)[k] == 0.05
    {
      MapsAt(ps, mask, k);
    }
  }
}
