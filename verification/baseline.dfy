/** Baseline window and signal-enhancement normalisation of voxel time curves.
    The baseline of a voxel is the mean of its first K samples, with
    K = int(1 + InjT / DelT); enhancement is x / (b + 0.001) - 1; the fitted
    curve is turned back into a signal by (f + 1) * b. */
module SignalNorm {
  import opened Values

  /** Guard added to the baseline before dividing. */
  const Eps: real := 0.001

  /** Python's `int()` of a float: truncation toward zero. */
  function Trunc(x: real): (r: int)
    ensures 0.0 <= x ==> r as real <= x < r as real + 1.0
    ensures x < 0.0 ==> r as real - 1.0 < x <= r as real
  {
    if x >= 0.0 then x.Floor else -((-x).Floor)
  }

  /** Number of leading samples used for the baseline: `int(1 + InjT / DelT)`. */
  function BaselinePoints(injT: real, delT: real): int
    requires delT != 0.0
  {
    Trunc(1.0 + injT / delT)
  }

  /** For a non-negative injection time and a positive sampling interval the
      count is one more than the number of whole intervals before injection. */
  lemma BaselinePointsFloor(injT: real, delT: real)
    requires injT >= 0.0 && delT > 0.0
    ensures BaselinePoints(injT, delT) == 1 + (injT / delT).Floor
    ensures BaselinePoints(injT, delT) >= 1
  {
    var q := injT / delT;
    assert q >= 0.0 by {
      assert q * delT == injT;
    }
    assert (1.0 + q).Floor == 1 + q.Floor;
  }

  /** Python's slice `s[:k]`: a non-negative stop keeps the first min(k, |s|)
      entries, a negative one drops the last -k entries. */
  function Head<T>(s: seq<T>, k: int): (w: seq<T>)
    ensures |w| <= |s| && w == s[..|w|]
    ensures 0 <= k ==> |w| == if k <= |s| then k else |s|
    ensures k < 0 ==> |w| == if -k <= |s| then |s| + k else 0
  {
    if k >= 0 then (if k <= |s| then s[..k] else s)
    else if -k <= |s| then s[..|s| + k] else []
  }

  function Sum(s: seq<real>): real
  {
    if s == [] then 0.0 else Sum(s[..|s| - 1]) + s[|s| - 1]
  }

  function Mean(s: seq<real>): real
    requires s != []
  {
    Sum(s) / |s| as real
  }

  lemma {:induction false} SumBounds(s: seq<real>, lo: real, hi: real)
    requires forall i :: 0 <= i < |s| ==> lo <= s[i] <= hi
    ensures |s| as real * lo <= Sum(s) <= |s| as real * hi
  {
    if s != [] {
      SumBounds(s[..|s| - 1], lo, hi);
    }
  }

  /** A mean lies between any lower and upper bound of the samples. */
  lemma MeanBounds(s: seq<real>, lo: real, hi: real)
    requires s != []
    requires forall i :: 0 <= i < |s| ==> lo <= s[i] <= hi
    ensures lo <= Mean(s) <= hi
  {
    SumBounds(s, lo, hi);
    var n := |s| as real;
    assert Mean(s) * n == Sum(s);
  }

  /** Baseline of one voxel's time curve: the mean of `curve[:k]`. An empty
      window has no mean (numpy gives NaN there). */
  function Baseline(curve: seq<real>, k: int): Option<real>
  {
    var w := Head(curve, k);
    if w == [] then None else Some(Mean(w))
  }

  /** Changing a sample after the window never changes the baseline. */
  lemma BaselineIgnoresLater(c1: seq<real>, c2: seq<real>, k: int)
    requires |c1| == |c2|
    requires forall i :: 0 <= i < |Head(c1, k)| ==> c1[i] == c2[i]
    ensures Baseline(c1, k) == Baseline(c2, k)
  {
    assert Head(c1, k) == Head(c2, k);
  }

  /** A non-empty window whose samples are all in [lo, hi] has its baseline in [lo, hi];
      in particular a constant window has that constant as baseline. */
  lemma BaselineBounds(curve: seq<real>, k: int, lo: real, hi: real)
    requires forall i :: 0 <= i < |curve| ==> lo <= curve[i] <= hi
    ensures Baseline(curve, k).Some? ==> lo <= Baseline(curve, k).value <= hi
  {
    var w := Head(curve, k);
    if w != [] {
      MeanBounds(w, lo, hi);
    }
  }

  /** Signal enhancement relative to the baseline. */
  function Enhance(x: real, b: real): (f: real)
    requires b + Eps != 0.0
    ensures (f + 1.0) * (b + Eps) == x
  {
    x / (b + Eps) - 1.0
  }

  /** Back from enhancement to signal, multiplying by the baseline alone. */
  function Reconstruct(f: real, b: real): real
  {
    (f + 1.0) * b
  }

  /** Normalising then reconstructing scales the signal by b / (b + 0.001): the
      round trip returns the original sample exactly when that sample is zero. */
  lemma ReconstructAfterEnhance(x: real, b: real)
    requires b + Eps != 0.0
    ensures Reconstruct(Enhance(x, b), b) == x * b / (b + Eps)
    ensures Reconstruct(Enhance(x, b), b) == x <==> x == 0.0
  {
    var d := b + Eps;
    var f := Enhance(x, b);
    assert f + 1.0 == x / d;
    calc {
      Reconstruct(f, b);
      (x / d) * b;
      x * b / d;
    }
    if x * b / d == x {
      assert x * b == x * d;
      assert x * Eps == 0.0;
    }
  }

  function EnhanceCurve(curve: seq<real>, b: real): (r: seq<real>)
    requires b + Eps != 0.0
    ensures |r| == |curve|
    ensures forall t :: 0 <= t < |curve| ==> (r[t] + 1.0) * (b + Eps) == curve[t]
  {
    seq(|curve|, t requires 0 <= t < |curve| => Enhance(curve[t], b))
  }

  function ReconstructCurve(fitted: seq<real>, b: real): (r: seq<real>)
    ensures |r| == |fitted|
  {
    seq(|fitted|, t requires 0 <= t < |fitted| => Reconstruct(fitted[t], b))
  }

  /** A fitted curve equal to the normalised input reconstructs to the input
      scaled by b / (b + 0.001), sample by sample. */
  lemma CurveRoundTrip(curve: seq<real>, b: real)
    requires b + Eps != 0.0
    ensures |ReconstructCurve(EnhanceCurve(curve, b), b)| == |curve|
    ensures forall t :: 0 <= t < |curve| ==>
      ReconstructCurve(EnhanceCurve(curve, b), b)[t] == curve[t] * b / (b + Eps)
  {
    var r := ReconstructCurve(EnhanceCurve(curve, b), b);
    forall t | 0 <= t < |curve|
      ensures r[t] == curve[t] * b / (b + Eps)
    {
      ReconstructAfterEnhance(curve[t], b);
    }
  }
}
