/**
 * Tiling geometry of a CMAC-style tile coder: the per-tiling stagger offsets,
 * the padded grid, the mixed-radix hash vector and the map from a coordinate
 * to one flat tile index per tiling. Everything here is pure arithmetic; the
 * coder object that stores these values lives in module TileCoding.
 */
module TileGeometry {

  /** The valid input interval of one dimension. */
  datatype Limit = Limit(low: real, high: real)

  /** Product of a sequence of naturals (numpy's `prod`). */
  function Prod(s: seq<nat>): nat
  {
    if |s| == 0 then 1 else Prod(s[..|s| - 1]) * s[|s| - 1]
  }

  /** Positional weights of the hash: entry i is the product of the UNPADDED dims before i. */
  function HashVec(dims: seq<nat>): seq<nat>
  {
    seq(|dims|, i requires 0 <= i < |dims| => Prod(dims[..i]))
  }

  /** Each dimension gets offsetVec[i] extra tiles so that staggered tilings stay on the grid. */
  function PaddedDims(dims: seq<nat>, offsetVec: seq<nat>): seq<nat>
    requires |offsetVec| == |dims|
  {
    seq(|dims|, i requires 0 <= i < |dims| => dims[i] + offsetVec[i])
  }

  /** Shift of tiling k along a dimension whose offset unit is o. */
  function TilingOffset(k: nat, tilings: nat, o: nat): real
    requires tilings > 0
  {
    (k as real) * (o as real) / (tilings as real)
  }

  /** Row k holds the shift of tiling k in every dimension. */
  function Offsets(tilings: nat, offsetVec: seq<nat>): seq<seq<real>>
    requires tilings > 0
  {
    seq(tilings, k requires 0 <= k < tilings =>
      seq(|offsetVec|, i requires 0 <= i < |offsetVec| => TilingOffset(k, tilings, offsetVec[i])))
  }

  function Ranges(limits: seq<Limit>): seq<real>
  {
    seq(|limits|, i requires 0 <= i < |limits| => limits[i].high - limits[i].low)
  }

  /** Rescales one input component onto a grid `width` tiles wide. */
  function Normalize(x: real, low: real, range: real, width: int): real
    requires range != 0.0
  {
    (x - low) * (width as real) / range
  }

  /** The coordinate in grid units; the grid width is padded - offset, i.e. the unpadded dim. */
  function Coords(x: seq<real>, limits: seq<Limit>, ranges: seq<real>, paddedDims: seq<nat>, offsetVec: seq<nat>): seq<real>
    requires |limits| == |x| && |ranges| == |x| && |paddedDims| == |x| && |offsetVec| == |x|
    requires forall i :: 0 <= i < |ranges| ==> ranges[i] != 0.0
  {
    seq(|x|, i requires 0 <= i < |x| =>
      Normalize(x[i], limits[i].low, ranges[i], paddedDims[i] as int - offsetVec[i]))
  }

  /** Integer tile coordinate of a grid point in the tiling shifted by `offset`. */
  function Cells(coords: seq<real>, offset: seq<real>): seq<int>
    requires |offset| == |coords|
  {
    seq(|coords|, i requires 0 <= i < |coords| => (coords[i] + offset[i]).Floor)
  }

  function Dot(h: seq<nat>, f: seq<int>): int
    requires |f| == |h|
  {
    if |h| == 0 then 0 else Dot(h[..|h| - 1], f[..|f| - 1]) + h[|h| - 1] * f[|f| - 1]
  }

  /** One flat index per tiling: the hashed tile coordinate placed in tiling k's slice. */
  function ActiveIndices(tilingSize: nat, hashVec: seq<nat>, coords: seq<real>, offsets: seq<seq<real>>): seq<int>
    requires |hashVec| == |coords|
    requires forall k :: 0 <= k < |offsets| ==> |offsets[k]| == |coords|
  {
    seq(|offsets|, k requires 0 <= k < |offsets| =>
      k * tilingSize + Dot(hashVec, Cells(coords, offsets[k])))
  }

  /** The configurations the coder works for (see README, "Left out"). */
  predicate WellFormed(dims: seq<nat>, limits: seq<Limit>, tilings: nat, offsetVec: seq<nat>)
  {
    && |dims| >= 1
    && |limits| == |dims|
    && |offsetVec| == |dims|
    && tilings >= 1
    && (forall i :: 0 <= i < |dims| ==> offsetVec[i] >= 1 && limits[i].low < limits[i].high)
  }

  predicate InLimits(x: seq<real>, limits: seq<Limit>)
  {
    |x| == |limits| && forall i :: 0 <= i < |x| ==> limits[i].low <= x[i] <= limits[i].high
  }

  lemma MulMono(a: nat, b: nat, c: nat, e: nat)
    requires a <= c && b <= e
    ensures a * b <= c * e
  {
    assert a * b <= c * b by {
      assert (c - a) * b >= 0;
    }
    assert c * b <= c * e by {
      assert c * (e - b) >= 0;
    }
  }

  /** A pointwise larger sequence has a larger product. */
  lemma {:induction false} ProdMono(d: seq<nat>, p: seq<nat>)
    requires |d| == |p|
    requires forall i :: 0 <= i < |d| ==> d[i] <= p[i]
    ensures Prod(d) <= Prod(p)
  {
    if |d| > 0 {
      var n := |d| - 1;
      ProdMono(d[..n], p[..n]);
      MulMono(Prod(d[..n]), d[n], Prod(p[..n]), p[n]);
    }
  }

  /** The hash vector starts at 1 and grows by the unpadded dim of the previous dimension. */
  lemma HashVecRecurrence(dims: seq<nat>)
    requires |dims| >= 1
    ensures |HashVec(dims)| == |dims| && HashVec(dims)[0] == 1
    ensures forall i :: 0 < i < |dims| ==> HashVec(dims)[i] == HashVec(dims)[i - 1] * dims[i - 1]
  {
    forall i | 0 < i < |dims|
      ensures HashVec(dims)[i] == HashVec(dims)[i - 1] * dims[i - 1]
    {
      assert dims[..i][..i - 1] == dims[..i - 1];
    }
  }

  lemma HashVecPrefix(dims: seq<nat>, n: nat)
    requires n <= |dims|
    ensures HashVec(dims)[..n] == HashVec(dims[..n])
  {
    forall i | 0 <= i < n
      ensures HashVec(dims)[..n][i] == HashVec(dims[..n])[i]
    {
      assert dims[..n][..i] == dims[..i];
    }
  }

  /**
   * The hash of a tile coordinate that lies on the padded grid stays below the
   * padded layer size. The hash uses the unpadded dims as radices, so it is not
   * injective on the padded grid, but it never leaves the layer.
   */
  lemma {:induction false} DotBound(d: seq<nat>, p: seq<nat>, f: seq<int>)
    requires |p| == |d| && |f| == |d|
    requires forall i :: 0 <= i < |d| ==> d[i] <= p[i] && 0 <= f[i] < p[i]
    ensures 0 <= Dot(HashVec(d), f) < Prod(p)
  {
    if |d| > 0 {
      var n := |d| - 1;
      var h := HashVec(d);
      HashVecPrefix(d, n);
      DotBound(d[..n], p[..n], f[..n]);
      ProdMono(d[..n], p[..n]);
      assert Dot(h, f) == Dot(h[..n], f[..n]) + h[n] * f[n];
      assert Prod(p) == Prod(p[..n]) * p[n];
      DigitStep(Dot(h[..n], f[..n]), h[n], f[n], Prod(p[..n]), p[n]);
    }
  }

  /** Appending one more mixed-radix digit keeps the value below the grown product. */
  lemma DigitStep(low: int, weight: nat, digit: int, below: nat, radix: nat)
    requires 0 <= low < below && weight <= below && 0 <= digit < radix
    ensures 0 <= low + weight * digit < below * radix
  {
    MulMono(weight, digit, below, radix - 1);
    assert below * (radix - 1) == below * radix - below;
  }

  /** The stagger of tiling k is a fraction of one offset unit: 0 <= offset < o. */
  lemma OffsetInRange(k: nat, tilings: nat, o: nat)
    requires k < tilings && o >= 1
    ensures 0.0 <= TilingOffset(k, tilings, o) < o as real
  {
    var t := tilings as real;
    var ko := (k as real) * (o as real);
    assert ko < t * (o as real) by {
      assert (t - k as real) * (o as real) > 0.0;
    }
    assert ko / t < o as real;
  }

  /** An in-range component lands in [0, width] grid units. */
  lemma NormalizeInRange(x: real, low: real, high: real, width: nat)
    requires low <= x <= high && low < high
    ensures 0.0 <= Normalize(x, low, high - low, width) <= width as real
  {
    var r := high - low;
    var w := width as real;
    MulNonneg(r - (x - low), w);
    assert (r - (x - low)) * w == r * w - (x - low) * w;
    MulNonneg(x - low, w);
    QuotientBound((x - low) * w, r, w);
  }

  lemma MulNonneg(a: real, b: real)
    requires a >= 0.0 && b >= 0.0
    ensures a * b >= 0.0
  {
  }

  /** A quotient by a positive r of a value in [0, r * w] lies in [0, w]. */
  lemma QuotientBound(n: real, r: real, w: real)
    requires r > 0.0 && 0.0 <= n <= r * w
    ensures 0.0 <= n / r <= w
  {
    var q := n / r;
    assert q * r == n;
    assert (w - q) * r == r * w - n;
  }

  /** A grid coordinate in [0, width] shifted by less than o floors into [0, width + o). */
  lemma CellInRange(c: real, off: real, width: nat, o: nat)
    requires 0.0 <= c <= width as real && 0.0 <= off < o as real
    ensures 0 <= (c + off).Floor < width + o
  {
  }

  /**
   * For an in-range coordinate, the index of tiling k lies in tiling k's own
   * slice [k * tilingSize, (k + 1) * tilingSize) of the weight array.
   */
  lemma ActiveIndicesInSlices(dims: seq<nat>, limits: seq<Limit>, tilings: nat, offsetVec: seq<nat>, x: seq<real>)
    requires WellFormed(dims, limits, tilings, offsetVec) && InLimits(x, limits)
    ensures var padded := PaddedDims(dims, offsetVec);
            var a := ActiveIndices(Prod(padded), HashVec(dims),
                                   Coords(x, limits, Ranges(limits), padded, offsetVec), Offsets(tilings, offsetVec));
            |a| == tilings && forall k :: 0 <= k < tilings ==> k * Prod(padded) <= a[k] < (k + 1) * Prod(padded)
  {
    var padded := PaddedDims(dims, offsetVec);
    var ts := Prod(padded);
    var coords := Coords(x, limits, Ranges(limits), padded, offsetVec);
    var offsets := Offsets(tilings, offsetVec);
    forall k | 0 <= k < tilings
      ensures 0 <= Dot(HashVec(dims), Cells(coords, offsets[k])) < ts
    {
      var f := Cells(coords, offsets[k]);
      forall i | 0 <= i < |dims|
        ensures dims[i] <= padded[i] && 0 <= f[i] < padded[i]
      {
        NormalizeInRange(x[i], limits[i].low, limits[i].high, dims[i]);
        OffsetInRange(k, tilings, offsetVec[i]);
        CellInRange(coords[i], offsets[k][i], dims[i], offsetVec[i]);
      }
      DotBound(dims, padded, f);
    }
  }

  /** Indices confined to their own slices are pairwise distinct and index the whole buffer. */
  lemma SlicesDistinct(a: seq<int>, tilingSize: nat)
    requires forall k :: 0 <= k < |a| ==> k * tilingSize <= a[k] < (k + 1) * tilingSize
    ensures forall k :: 0 <= k < |a| ==> 0 <= a[k] < |a| * tilingSize
    ensures forall k, m :: 0 <= k < m < |a| ==> a[k] < a[m]
  {
    forall k | 0 <= k < |a|
      ensures 0 <= a[k] < |a| * tilingSize
    {
      MulMono(0, tilingSize, k, tilingSize);
      MulMono(k + 1, tilingSize, |a|, tilingSize);
    }
    forall k, m | 0 <= k < m < |a|
      ensures a[k] < a[m]
    {
      MulMono(k + 1, tilingSize, m, tilingSize);
    }
  }
}
