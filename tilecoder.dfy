/**
 * The tile coder object: geometry fixed at construction, a flat weight array
 * that updates mutate in place, and the scratch array of active indices that
 * every prediction and update refills.
 */
module TileCoding {
  import opened TileGeometry
  import opened TileWeights

  /** Builds the hash vector as the constructor does: start from [1], append dims[i] times the last entry. */
  method BuildHashVec(dims: seq<nat>) returns (h: seq<nat>)
    requires |dims| >= 1
    ensures |h| == |dims| && h[0] == 1
    ensures forall i :: 0 < i < |dims| ==> h[i] == h[i - 1] * dims[i - 1]
    ensures h == HashVec(dims)
  {
    h := [1];
    var i := 0;
    while i < |dims| - 1
      invariant 0 <= i <= |dims| - 1
      invariant |h| == i + 1
      invariant forall j :: 0 <= j <= i ==> h[j] == Prod(dims[..j])
    {
      assert dims[..i + 1][..i] == dims[..i];
      h := h + [dims[i] * h[i]];
      i := i + 1;
    }
    assert forall j :: 0 <= j < |h| ==> h[j] == HashVec(dims)[j];
    HashVecRecurrence(dims);
  }

  /**
   * numpy's `w[idx] += d` on a buffer: gather the old values at idx, add d and
   * write them back, so each listed position moves by d once.
   */
  method ScatterAdd(w: array<real>, idx: seq<int>, d: real)
    requires Indexes(idx, w.Length)
    modifies w
    ensures w[..] == Bump(old(w[..]), idx, d)
  {
    var gathered := Gather(w[..], idx);
    for k := 0 to |idx|
      invariant forall j :: 0 <= j < w.Length ==>
                  w[j] == if j in idx[..k] then old(w[j]) + d else old(w[j])
    {
      assert idx[..k + 1] == idx[..k] + [idx[k]];
      w[idx[k]] := gathered[k] + d;
    }
    assert idx[..|idx|] == idx;
  }

  class TileCoder {
    /** The tile counts per dimension before padding; kept only to state what the hash vector is. */
    ghost const dims: seq<nat>
    const nDims: nat
    const tilings: nat
    const offsetVec: seq<nat>
    const offsets: seq<seq<real>>
    const paddedDims: seq<nat>
    const limits: seq<Limit>
    const ranges: seq<real>
    var alpha: real
    const tilingSize: nat
    const weights: array<real>
    const tileInd: array<int>
    const hashVec: seq<nat>

    /** Every derived field is the geometry function of the configuration, and the buffers have their sizes. */
    ghost predicate Valid()
    {
      && WellFormed(dims, limits, tilings, offsetVec)
      && nDims == |dims|
      && offsets == Offsets(tilings, offsetVec)
      && paddedDims == PaddedDims(dims, offsetVec)
      && ranges == Ranges(limits)
      && tilingSize == Prod(paddedDims)
      && hashVec == HashVec(dims)
      && weights.Length == tilings * tilingSize
      && tileInd.Length == tilings
    }

    constructor (dims: seq<nat>, limits: seq<Limit>, tilings: nat, stepSize: real, offsetVec: seq<nat>)
      requires WellFormed(dims, limits, tilings, offsetVec)
      ensures Valid()
      ensures this.dims == dims && this.limits == limits && this.tilings == tilings && this.offsetVec == offsetVec
      ensures alpha == stepSize / (tilings as real)
      ensures weights.Length == tilings * Prod(PaddedDims(dims, offsetVec))
      ensures forall j :: 0 <= j < weights.Length ==> weights[j] == 0.0
      ensures fresh(weights) && fresh(tileInd)
    {
      this.dims := dims;
      nDims := |dims|;
      this.tilings := tilings;
      this.offsetVec := offsetVec;
      offsets := Offsets(tilings, offsetVec);
      paddedDims := PaddedDims(dims, offsetVec);
      this.limits := limits;
      ranges := Ranges(limits);
      alpha := stepSize / (tilings as real);
      var size := Prod(PaddedDims(dims, offsetVec));
      tilingSize := size;
      weights := new real[tilings * size](_ => 0.0);
      tileInd := new int[tilings](_ => 0);
      var h := BuildHashVec(dims);
      hashVec := h;
    }

    /** The active index of every tiling for x, as the scratch buffer receives them. */
    function ActiveTiles(x: seq<real>): seq<int>
      requires Valid() && |x| == nDims
    {
      ActiveIndices(tilingSize, hashVec, Coords(x, limits, ranges, paddedDims, offsetVec), offsets)
    }

    /**
     * For x inside the limits the index of tiling k lies in tiling k's own
     * slice of the weight array, so the indices are distinct and all address
     * the array.
     */
    lemma ActiveTilesInSlices(x: seq<real>)
      requires Valid() && InLimits(x, limits)
      ensures |ActiveTiles(x)| == tilings
      ensures forall k :: 0 <= k < tilings ==> k * tilingSize <= ActiveTiles(x)[k] < (k + 1) * tilingSize
      ensures Indexes(ActiveTiles(x), weights.Length)
      ensures forall k, m :: 0 <= k < m < tilings ==> ActiveTiles(x)[k] != ActiveTiles(x)[m]
    {
      ActiveIndicesInSlices(dims, limits, tilings, offsetVec, x);
      SlicesDistinct(ActiveTiles(x), tilingSize);
    }

    /** The value the coder currently predicts at an in-range x. */
    ghost function Prediction(x: seq<real>): real
      reads weights
      requires Valid() && InLimits(x, limits)
    {
      ActiveTilesInSlices(x);
      Sum(Gather(weights[..], ActiveTiles(x)))
    }

    /** Fills the scratch buffer with the active index of every tiling. */
    method GetTiles(x: seq<real>)
      requires Valid() && |x| == nDims
      modifies tileInd
      ensures tileInd[..] == ActiveTiles(x)
    {
      var coords := Coords(x, limits, ranges, paddedDims, offsetVec);
      for i := 0 to tilings
        invariant forall k :: 0 <= k < i ==> tileInd[k] == k * tilingSize + Dot(hashVec, Cells(coords, offsets[k]))
      {
        tileInd[i] := i * tilingSize + Dot(hashVec, Cells(coords, offsets[i]));
      }
    }

    method SetStepSize(stepSize: real)
      requires Valid()
      modifies this
      ensures alpha == stepSize / (tilings as real)
    {
      alpha := stepSize / (tilings as real);
    }

    /** Sums the weights of the active tiles; the weights do not change. */
    method Predict(x: seq<real>) returns (p: real)
      requires Valid() && InLimits(x, limits)
      modifies tileInd
      ensures tileInd[..] == ActiveTiles(x)
      ensures p == Prediction(x)
    {
      GetTiles(x);
      ActiveTilesInSlices(x);
      p := Sum(Gather(weights[..], tileInd[..]));
    }

    /**
     * Moves every active weight by alpha times the error of the prediction the
     * old weights give; all other weights keep their values. TileWeights.UpdateLaw
     * and TileWeights.StepSizeLaw say what this does to the prediction at x.
     */
    method Update(x: seq<real>, val: real)
      requires Valid() && InLimits(x, limits)
      modifies weights, tileInd
      ensures tileInd[..] == ActiveTiles(x)
      ensures weights[..] == Bump(old(weights[..]), ActiveTiles(x), Correction(alpha, val, old(Prediction(x))))
      ensures forall j :: 0 <= j < weights.Length && j !in ActiveTiles(x) ==> weights[j] == old(weights[j])
    {
      ghost var before := weights[..];
      ghost var active := ActiveTiles(x);
      ActiveTilesInSlices(x);
      GetTiles(x);
      var pred := Sum(Gather(weights[..], tileInd[..]));
      assert pred == old(Prediction(x));
      var delta := Correction(alpha, val, pred);
      ScatterAdd(weights, tileInd[..], delta);
      assert weights[..] == Bump(before, active, delta);
    }
  }
}

/**
 * A caller's view of a single-tiling coder on the unit square: one update
 * with step size 1 fits the sample exactly, and a point in another tile still
 * predicts 0.
 */
module TileCodingScenario {
  import opened TileGeometry
  import opened TileWeights
  import opened TileCoding

  const UnitSquare := [Limit(0.0, 1.0), Limit(0.0, 1.0)]

  lemma UnitSquareGeometry()
    ensures HashVec([2, 2]) == [1, 2]
    ensures Offsets(1, [1, 1]) == [[0.0, 0.0]]
    ensures PaddedDims([2, 2], [1, 1]) == [3, 3] && Prod([3, 3]) == 9
    ensures Ranges(UnitSquare) == [1.0, 1.0]
  {
    assert [2, 2][..0] == [] && [2, 2][..1] == [2] && [2][..0] == [];
    assert HashVec([2, 2])[0] == 1 && HashVec([2, 2])[1] == 2;
    assert TilingOffset(0, 1, 1) == 0.0;
    assert Offsets(1, [1, 1])[0] == [0.0, 0.0];
    assert [3, 3][..1] == [3] && [3][..0] == [];
  }

  lemma UnitSquareTiles()
    ensures ActiveIndices(9, [1, 2], Coords([0.1, 0.1], UnitSquare, [1.0, 1.0], [3, 3], [1, 1]), [[0.0, 0.0]]) == [0]
    ensures ActiveIndices(9, [1, 2], Coords([0.9, 0.9], UnitSquare, [1.0, 1.0], [3, 3], [1, 1]), [[0.0, 0.0]]) == [3]
  {
    assert [1, 2][..1] == [1] && [0, 0][..1] == [0] && [1, 1][..1] == [1];
    assert Coords([0.1, 0.1], UnitSquare, [1.0, 1.0], [3, 3], [1, 1]) == [0.2, 0.2];
    assert Cells([0.2, 0.2], [0.0, 0.0]) == [0, 0];
    assert [1][..0] == [] && [2][..0] == [] && [0][..0] == [];
    assert Dot([1, 2], [0, 0]) == 0;
    assert Coords([0.9, 0.9], UnitSquare, [1.0, 1.0], [3, 3], [1, 1]) == [1.8, 1.8];
    assert Cells([1.8, 1.8], [0.0, 0.0]) == [1, 1];
    assert Dot([1, 2], [1, 1]) == 3;
  }

  /**
   * The hash uses the unpadded dims as radices, so two different cells of the
   * padded grid can share a tile: (1.0, 0.0) falls in cell (2, 0) and
   * (0.0, 0.5) in cell (0, 1), and both hash to tile 2.
   */
  lemma UnitSquareCollision()
    ensures Cells(Coords([1.0, 0.0], UnitSquare, [1.0, 1.0], [3, 3], [1, 1]), [0.0, 0.0]) == [2, 0]
    ensures Cells(Coords([0.0, 0.5], UnitSquare, [1.0, 1.0], [3, 3], [1, 1]), [0.0, 0.0]) == [0, 1]
    ensures ActiveIndices(9, [1, 2], Coords([1.0, 0.0], UnitSquare, [1.0, 1.0], [3, 3], [1, 1]), [[0.0, 0.0]]) == [2]
    ensures ActiveIndices(9, [1, 2], Coords([0.0, 0.5], UnitSquare, [1.0, 1.0], [3, 3], [1, 1]), [[0.0, 0.0]]) == [2]
  {
    assert [1, 2][..1] == [1] && [2, 0][..1] == [2] && [0, 1][..1] == [0];
    assert Coords([1.0, 0.0], UnitSquare, [1.0, 1.0], [3, 3], [1, 1]) == [2.0, 0.0];
    assert Cells([2.0, 0.0], [0.0, 0.0]) == [2, 0];
    assert [1][..0] == [] && [2][..0] == [] && [0][..0] == [];
    assert Dot([1, 2], [2, 0]) == 2;
    assert Coords([0.0, 0.5], UnitSquare, [1.0, 1.0], [3, 3], [1, 1]) == [0.0, 1.0];
    assert Cells([0.0, 1.0], [0.0, 0.0]) == [0, 1];
    assert Dot([1, 2], [0, 1]) == 2;
  }

  lemma TwoTilingOffsets()
    ensures Offsets(2, [1, 1]) == [[0.0, 0.0], [0.5, 0.5]]
  {
    assert TilingOffset(0, 2, 1) == 0.0 && TilingOffset(1, 2, 1) == 0.5;
    assert Offsets(2, [1, 1])[0] == [0.0, 0.0] && Offsets(2, [1, 1])[1] == [0.5, 0.5];
  }

  lemma TwoTilingTilesNearRight()
    ensures ActiveIndices(9, [1, 2], Coords([0.9, 0.1], UnitSquare, [1.0, 1.0], [3, 3], [1, 1]), [[0.0, 0.0], [0.5, 0.5]]) == [1, 11]
  {
    assert [1, 2][..1] == [1] && [1, 0][..1] == [1] && [2, 0][..1] == [2];
    assert Coords([0.9, 0.1], UnitSquare, [1.0, 1.0], [3, 3], [1, 1]) == [1.8, 0.2];
    assert Cells([1.8, 0.2], [0.0, 0.0]) == [1, 0];
    assert Cells([1.8, 0.2], [0.5, 0.5]) == [2, 0];
    assert [1][..0] == [] && [2][..0] == [];
    assert Dot([1, 2], [1, 0]) == 1 && Dot([1, 2], [2, 0]) == 2;
  }

  lemma TwoTilingTilesNearTop()
    ensures ActiveIndices(9, [1, 2], Coords([0.1, 0.74], UnitSquare, [1.0, 1.0], [3, 3], [1, 1]), [[0.0, 0.0], [0.5, 0.5]]) == [2, 11]
  {
    assert [1, 2][..1] == [1] && [0, 1][..1] == [0];
    assert Coords([0.1, 0.74], UnitSquare, [1.0, 1.0], [3, 3], [1, 1]) == [0.2, 1.48];
    assert Cells([0.2, 1.48], [0.0, 0.0]) == [0, 1];
    assert Cells([0.2, 1.48], [0.5, 0.5]) == [0, 1];
    assert [1][..0] == [] && [0][..0] == [];
    assert Dot([1, 2], [0, 1]) == 2;
  }

  /**
   * Sharing a tile does not need the points to be close: with two tilings on
   * the same grid, (0.9, 0.1) and (0.1, 0.74) lie more than one tile apart in
   * both dimensions, yet both activate tile 11 in tiling 1 (and different
   * tiles in tiling 0).
   */
  lemma TwoTilingSharedTile()
    ensures var offsets := Offsets(2, [1, 1]);
            var right := ActiveIndices(9, [1, 2], Coords([0.9, 0.1], UnitSquare, [1.0, 1.0], [3, 3], [1, 1]), offsets);
            var top := ActiveIndices(9, [1, 2], Coords([0.1, 0.74], UnitSquare, [1.0, 1.0], [3, 3], [1, 1]), offsets);
            right == [1, 11] && top == [2, 11]
  {
    TwoTilingOffsets();
    TwoTilingTilesNearRight();
    TwoTilingTilesNearTop();
  }

  /**
   * Without padding (offset 0) an input at the upper limit lands one tile past
   * the layer: one dimension of 2 tiles on [0, 1] sends x = 1.0 to index 2 of a
   * 2-entry buffer. This is why the offsets must be at least 1.
   */
  lemma UnpaddedOverflow()
    ensures PaddedDims([2], [0]) == [2] && Prod([2]) == 2 && HashVec([2]) == [1]
    ensures ActiveIndices(2, [1], Coords([1.0], [Limit(0.0, 1.0)], [1.0], [2], [0]), Offsets(1, [0])) == [2]
  {
    assert [2][..0] == [] && HashVec([2])[0] == 1;
    assert [2][..0] == [] && Prod([2]) == Prod([]) * 2;
    assert Offsets(1, [0])[0] == [0.0];
    assert Coords([1.0], [Limit(0.0, 1.0)], [1.0], [2], [0]) == [2.0];
    assert Cells([2.0], [0.0]) == [2];
    assert [1][..0] == [] && [2][..0] == [] && Dot([1], [2]) == 2;
  }

  method SingleTilingScenario() returns (atSample: real, elsewhere: real)
    ensures atSample == 5.0 && elsewhere == 0.0
  {
    var c := new TileCoder([2, 2], UnitSquare, 1, 1.0, [1, 1]);
    UnitSquareGeometry();
    UnitSquareTiles();
    assert c.ActiveTiles([0.1, 0.1]) == [0];
    assert c.ActiveTiles([0.9, 0.9]) == [3];
    SumOfZeros(c.weights[..], [0]);
    assert c.Prediction([0.1, 0.1]) == 0.0;
    c.Update([0.1, 0.1], 5.0);
    assert c.weights[0] == 5.0 && c.weights[3] == 0.0 by {
      assert 0 in [0] && 3 !in [0];
    }
    atSample := c.Predict([0.1, 0.1]);
    elsewhere := c.Predict([0.9, 0.9]);
  }

  /** A freshly built coder predicts 0 at every in-range point. */
  method FreshPrediction(dims: seq<nat>, limits: seq<Limit>, tilings: nat, stepSize: real, offsetVec: seq<nat>, x: seq<real>)
    returns (p: real)
    requires WellFormed(dims, limits, tilings, offsetVec) && InLimits(x, limits)
    ensures p == 0.0
  {
    var c := new TileCoder(dims, limits, tilings, stepSize, offsetVec);
    c.ActiveTilesInSlices(x);
    SumOfZeros(c.weights[..], c.ActiveTiles(x));
    p := c.Predict(x);
  }

  /** Predicting twice with no update in between gives the same value. */
  method PredictTwice(c: TileCoder, x: seq<real>) returns (first: real, second: real)
    requires c.Valid() && InLimits(x, c.limits)
    modifies c.tileInd
    ensures first == second
  {
    first := c.Predict(x);
    second := c.Predict(x);
  }
}
