/** Voxel selection: a boolean mask over the flattened spatial volume picks the
    voxels to analyse (gather), and per-voxel results are written back into
    full-length, zero-filled arrays (scatter). Flat order is the row-major order
    of the spatial axes, so the k-th selected voxel is the k-th true entry. */
module VoxelMask {

  /** Number of true entries: the number N of voxels selected. */
  function Count(mask: seq<bool>): (n: nat)
    ensures n <= |mask|
  {
    if mask == [] then 0
    else Count(mask[..|mask| - 1]) + (if mask[|mask| - 1] then 1 else 0)
  }

  /** Adding one entry to a prefix adds one to the count exactly when the entry is true. */
  lemma CountStep(mask: seq<bool>, i: nat)
    requires i < |mask|
    ensures Count(mask[..i + 1]) == Count(mask[..i]) + (if mask[i] then 1 else 0)
  {
    assert mask[..i + 1][..i] == mask[..i];
  }

  /** A prefix never holds more true entries than the whole mask, and a true
      entry at position k leaves room for its own rank. */
  lemma {:induction false} CountPrefix(mask: seq<bool>, k: nat)
    requires k <= |mask|
    ensures Count(mask[..k]) <= Count(mask)
    ensures k < |mask| && mask[k] ==> Count(mask[..k]) < Count(mask)
    decreases |mask| - k
  {
    if k < |mask| {
      CountStep(mask, k);
      CountPrefix(mask, k + 1);
    } else {
      assert mask[..k] == mask;
    }
  }

  /** The rank of a true entry (its position among the selected voxels) grows
      strictly with its flat index: selection keeps ascending flat order. */
  lemma {:induction false} RankIncreasing(mask: seq<bool>, i: nat, j: nat)
    requires i < j <= |mask| && mask[i]
    ensures Count(mask[..i]) < Count(mask[..j])
    decreases j - i
  {
    CountStep(mask, i);
    if i + 1 < j {
      CountMonotone(mask, i + 1, j);
    }
  }

  lemma {:induction false} CountMonotone(mask: seq<bool>, i: nat, j: nat)
    requires i <= j <= |mask|
    ensures Count(mask[..i]) <= Count(mask[..j])
    decreases j - i
  {
    if i < j {
      CountStep(mask, i);
      CountMonotone(mask, i + 1, j);
    }
  }

  /** An all-true mask selects every voxel, each at its own rank. */
  lemma {:induction false} CountAll(mask: seq<bool>)
    requires forall i :: 0 <= i < |mask| ==> mask[i]
    ensures Count(mask) == |mask|
    ensures forall k :: 0 <= k <= |mask| ==> Count(mask[..k]) == k
  {
    if mask != [] {
      var n := |mask| - 1;
      CountAll(mask[..n]);
      forall k | 0 <= k <= n
        ensures Count(mask[..k]) == k
      {
        assert mask[..n][..k] == mask[..k];
      }
      assert mask[..|mask|] == mask;
    }
  }

  /** The mask that selects all n voxels (used when no ROI is given). */
  function AllVoxels(n: nat): (mask: seq<bool>)
    ensures |mask| == n && Count(mask) == n
    ensures forall k :: 0 <= k <= n ==> Count(mask[..k]) == k
  {
    var mask := seq(n, _ => true);
    CountAll(mask);
    mask
  }

  /** The rows at true positions, in ascending flat order (numpy boolean indexing `xs[mask]`). */
  function Gather<T>(xs: seq<T>, mask: seq<bool>): (r: seq<T>)
    requires |xs| == |mask|
    ensures |r| == Count(mask)
  {
    if mask == [] then []
    else
      var n := |mask| - 1;
      Gather(xs[..n], mask[..n]) + (if mask[n] then [xs[n]] else [])
  }

  /** The selected voxel at flat index k sits at position rank(k) of the gathered rows. */
  lemma {:induction false} GatherAt<T>(xs: seq<T>, mask: seq<bool>, k: nat)
    requires |xs| == |mask| && k < |mask| && mask[k]
    ensures Count(mask[..k]) < Count(mask)
    ensures Gather(xs, mask)[Count(mask[..k])] == xs[k]
  {
    CountPrefix(mask, k);
    var n := |mask| - 1;
    if k < n {
      assert mask[..n][..k] == mask[..k];
      GatherAt(xs[..n], mask[..n], k);
      CountPrefix(mask[..n], k);
    } else {
      assert mask[..k] == mask[..n];
    }
  }

  /** Zero-filled full-length array with the i-th value written at the i-th true
      position (`a = zeros(len(mask)); a[mask] = vals`). */
  function Scatter<T>(vals: seq<T>, mask: seq<bool>, zero: T): (r: seq<T>)
    requires |vals| == Count(mask)
    ensures |r| == |mask|
  {
    if mask == [] then []
    else
      var n := |mask| - 1;
      if mask[n] then Scatter(vals[..|vals| - 1], mask[..n], zero) + [vals[|vals| - 1]]
      else Scatter(vals, mask[..n], zero) + [zero]
  }

  /** Pointwise meaning of Scatter: the value of rank k at a true position, zero elsewhere. */
  lemma {:induction false} ScatterAt<T>(vals: seq<T>, mask: seq<bool>, zero: T, k: nat)
    requires |vals| == Count(mask) && k < |mask|
    ensures mask[k] ==> Count(mask[..k]) < |vals|
    ensures Scatter(vals, mask, zero)[k] == if mask[k] then vals[Count(mask[..k])] else zero
  {
    CountPrefix(mask, k);
    var n := |mask| - 1;
    if k < n {
      assert mask[..n][..k] == mask[..k];
      if mask[n] {
        ScatterAt(vals[..|vals| - 1], mask[..n], zero, k);
        CountPrefix(mask[..n], k);
      } else {
        ScatterAt(vals, mask[..n], zero, k);
      }
    } else {
      assert mask[..k] == mask[..n];
    }
  }

  /** The input restricted to the mask: itself at true positions, zero elsewhere. */
  function Masked<T>(xs: seq<T>, mask: seq<bool>, zero: T): (r: seq<T>)
    requires |xs| == |mask|
    ensures |r| == |mask|
    ensures forall k :: 0 <= k < |mask| ==> r[k] == if mask[k] then xs[k] else zero
  {
    seq(|mask|, k requires 0 <= k < |mask| => if mask[k] then xs[k] else zero)
  }

  /** Round trip: scattering the gathered rows restores the input on the mask and zero off it. */
  lemma {:induction false} ScatterGather<T>(xs: seq<T>, mask: seq<bool>, zero: T)
    requires |xs| == |mask|
    ensures Scatter(Gather(xs, mask), mask, zero) == Masked(xs, mask, zero)
  {
    if mask != [] {
      var n := |mask| - 1;
      var g := Gather(xs[..n], mask[..n]);
      ScatterGather(xs[..n], mask[..n], zero);
      if mask[n] {
        assert Gather(xs, mask) == g + [xs[n]];
        assert (g + [xs[n]])[..|g|] == g;
        assert Scatter(g + [xs[n]], mask, zero) == Scatter(g, mask[..n], zero) + [xs[n]];
      } else {
        assert Gather(xs, mask) == g;
        assert Scatter(g, mask, zero) == Scatter(g, mask[..n], zero) + [zero];
      }
      assert Masked(xs, mask, zero) == Masked(xs[..n], mask[..n], zero) + [if mask[n] then xs[n] else zero];
    }
  }

  /** The other direction: gathering a scattered vector gives the vector back. */
  lemma {:induction false} GatherScatter<T>(vals: seq<T>, mask: seq<bool>, zero: T)
    requires |vals| == Count(mask)
    ensures Gather(Scatter(vals, mask, zero), mask) == vals
  {
    if mask != [] {
      var n := |mask| - 1;
      var s := Scatter(vals, mask, zero);
      if mask[n] {
        var v := vals[..|vals| - 1];
        GatherScatter(v, mask[..n], zero);
        assert s[..n] == Scatter(v, mask[..n], zero);
        assert vals == v + [vals[|vals| - 1]];
      } else {
        GatherScatter(vals, mask[..n], zero);
        assert s[..n] == Scatter(vals, mask[..n], zero);
      }
    }
  }

  /** Allocates the zero-filled array and performs the masked write, one flat position at a time. */
  method ScatterNew<T>(vals: seq<T>, mask: seq<bool>, zero: T) returns (a: array<T>)
    requires |vals| == Count(mask)
    ensures fresh(a)
    ensures a[..] == Scatter(vals, mask, zero)
  {
    a := new T[|mask|](_ => zero);
    var i, j := 0, 0;
    while i < |mask|
      invariant 0 <= i <= |mask| && j == Count(mask[..i]) && j <= |vals|
      invariant a[..i] == Scatter(vals[..j], mask[..i], zero)
      invariant forall k :: i <= k < |mask| ==> a[k] == zero
    {
      CountStep(mask, i);
      CountPrefix(mask, i);
      assert mask[..i + 1][..i] == mask[..i];
      if mask[i] {
        assert vals[..j + 1][..j] == vals[..j];
        a[i] := vals[j];
        j := j + 1;
      }
      assert a[..i + 1] == a[..i] + [a[i]];
      i := i + 1;
    }
    assert mask[..i] == mask;
    assert vals[..j] == vals by { CountPrefix(mask, i); }
    assert a[..] == a[..i];
  }
}
