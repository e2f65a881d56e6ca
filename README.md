# Tile coder

This project models a CMAC-style tile coder (`tilecoder` in `tilecoding.py`). The coder approximates a function on a box of real inputs.

- **Tilings.** It lays `tilings` staggered grids over the box. Each grid has `dims[i]` tiles along dimension `i`, plus `offset_vec[i]` padding tiles.
- **Weights.** It keeps one weight per tile in a flat array, and each tiling owns its own slice of that array.
- **Predict.** A prediction at `x` finds the one active tile of every tiling and sums their weights.
- **Update.** An update at `x` with target `val` adds `alpha * (val - prediction)` to every active weight. Here `alpha = step_size / tilings`.

The project has three modules:

- `TileGeometry` (`geometry.dfy`) is the pure arithmetic of the constructor and of `_get_tiles`:
  - the stagger offsets;
  - the padded dimensions;
  - the mixed-radix hash vector;
  - the normalised coordinates;
  - the flat active indices.

  It proves that every index lies in its own tiling's slice.
- `TileWeights` (`weights.dfy`) reads and writes the weight buffer on values.
  - `Gather` is numpy's `w[idx]` and `Bump` is numpy's `w[idx] += d`.
  - It proves the update laws: the prediction moves by `step_size * (val - pred)` and the error shrinks. It also proves locality.
- `TileCoding` (`tilecoder.dfy`) holds the `TileCoder` class.
  - Its constant fields are set by the constructor.
  - Its `weights` and `tileInd` arrays are changed in place by `GetTiles`, `Predict` and `Update`.
  - `SetStepSize` reassigns `alpha`.

  `TileCodingScenario` contains client methods and lemmas that exercise the class end to end.

## Model

| member | source | states |
|---|---|---|
| TileCoding.BuildHashVec | tilecoding.py:18-20 | the loop yields a vector of length `|dims|` that starts at 1, where each entry is the previous one times the previous UNPADDED dim; it equals `HashVec(dims)`, the prefix products |
| TileGeometry.HashVecRecurrence | tilecoding.py:18-20 | the hash vector given as prefix products satisfies the constructor's recurrence `h[0] == 1` and `h[i] == h[i-1] * dims[i-1]` |
| TileGeometry.ProdMono | tilecoding.py:11-15 | a pointwise larger dims vector has a larger product, so the unpadded grid fits inside the padded tiling size |
| TileGeometry.DotBound | tilecoding.py:25 | a tile coordinate on the padded grid hashes into `[0, Prod(padded))`, even though the radices are the unpadded dims |
| TileGeometry.OffsetInRange | tilecoding.py:10 | the stagger of tiling `k < tilings` along a dimension is in `[0, offset_vec[i])` |
| TileGeometry.NormalizeInRange | tilecoding.py:23 | an input within its limits normalises into `[0, dims[i]]` grid units |
| TileGeometry.ActiveIndicesInSlices | tilecoding.py:22-25 | for in-range `x`, there is one index per tiling, and the index of tiling `k` lies in `[k*tiling_size, (k+1)*tiling_size)` |
| TileGeometry.SlicesDistinct | tilecoding.py:24-25 | indices confined to their own slices are strictly increasing, hence distinct, and all address the weight buffer |
| TileCoding.TileCoder.constructor | tilecoding.py:6-20 | the configuration is stored, the derived fields equal the geometry functions, `alpha == step_size / tilings`, and the weight buffer has `tilings * Prod(dims + offset_vec)` entries, all zero |
| TileCoding.TileCoder.ActiveTilesInSlices | tilecoding.py:22-25 | for the coder's own geometry, the active tiles are one per tiling, lie in their slices, are pairwise distinct and are valid weight indices |
| TileCoding.TileCoder.GetTiles | tilecoding.py:22-25 | the loop fills the scratch buffer with exactly the active indices of `x` |
| TileCoding.TileCoder.SetStepSize | tilecoding.py:27-28 | `alpha` becomes `step_size / tilings` |
| TileCoding.TileCoder.Predict | tilecoding.py:30-32 | the result is the sum of the weights at the active tiles; only the scratch buffer changes |
| TileCoding.TileCoder.Update | tilecoding.py:34-36 | every active weight moves by `alpha * (val - old prediction)`, every other weight keeps its value, and the scratch buffer holds the active tiles |
| TileCoding.ScatterAdd | tilecoding.py:36 | `w[idx] += d` leaves the buffer equal to `Bump(old, idx, d)`, so each listed position moves by `d` exactly once |
| TileWeights.SumOfZeros | tilecoding.py:32 | a zeroed buffer predicts 0 at any set of indices |
| TileWeights.BumpedSum | tilecoding.py:32-36 | reading `b` after bumping `a` by `d` adds `d` once for every entry of `b` that `a` touched |
| TileWeights.UpdateLaw | tilecoding.py:36 | bumping the active indices by `d` moves the prediction there by `tilings * d` |
| TileWeights.StepSizeLaw | tilecoding.py:36 | with `alpha = step_size / tilings`, one update moves the prediction to `pred + step_size * (val - pred)`, for any number of tilings |
| TileWeights.ErrorContraction | tilecoding.py:36 | after one update the error is `(1 - step_size)` times the old error, and it strictly shrinks when `0 < step_size < 2` |
| TileWeights.SingleTilingExact | tilecoding.py:14-36 | with one tiling, step size 1 and zero weights, the prediction is 0 before the update and exactly `val` after it |
| TileWeights.UpdateIsLocal | tilecoding.py:36 | an update at `a` leaves the prediction at `b` unchanged when `b` shares no active index with `a` |
| TileCodingScenario.UnitSquareGeometry | tilecoding.py:9-20 | a 2x2 coder with one tiling on the unit square has hash vector `[1, 2]`, zero offsets, padded dims `[3, 3]` (9 tiles) and unit ranges |
| TileCodingScenario.UnitSquareTiles | tilecoding.py:22-25 | on that coder, `(0.1, 0.1)` activates tile 0 and `(0.9, 0.9)` activates tile 3 |
| TileCodingScenario.UnitSquareCollision | tilecoding.py:18-25 | on that coder, the in-range inputs `(1.0, 0.0)` and `(0.0, 0.5)` fall in different padded-grid cells, `(2, 0)` and `(0, 1)`, yet both activate tile 2: the hash is not injective |
| TileCodingScenario.TwoTilingSharedTile | tilecoding.py:10-25 | with two tilings on that grid, `(0.9, 0.1)` and `(0.1, 0.74)`, more than one tile apart in both dimensions, activate `[1, 11]` and `[2, 11]`: they share tile 11 in tiling 1 |
| TileCodingScenario.UnpaddedOverflow | tilecoding.py:9-25 | with offset 0 (no padding), one dimension of 2 tiles on `[0, 1]` and one tiling, the input `1.0` gets index 2 in a buffer of 2 entries |
| TileCodingScenario.SingleTilingScenario | tilecoding.py:6-36 | after one update with target 5 at `(0.1, 0.1)`, the prediction there is 5, and at `(0.9, 0.9)`, in another tile, it is still 0 |
| TileCodingScenario.FreshPrediction | tilecoding.py:16-32 | a freshly built coder predicts 0 at every in-range point |
| TileCodingScenario.PredictTwice | tilecoding.py:30-32 | two predictions with no update in between return the same value |

## Left out

- `example()` (tilecoding.py:38 onwards) is left out. It draws random samples, trains the coder and plots the result, which needs randomness, plotting and printing.
- Floating point is modelled as exact reals.
  - Rounding in the normalisation, in the offsets and in the sums is not modelled.
  - The laws in `TileWeights` therefore hold exactly here, but only approximately in IEEE doubles.
  - `int(...)` in `_get_tiles` is applied to `i * tiling_size + dot(hash_vec, floor(...))`, which is always a whole number stored as a float. It is therefore exact, and the model drops it.
- Division is modelled as true division, as in Python 3. Under Python 2 two cases would be integer division:
  - `step_size / tilings` (tilecoding.py:14), when `step_size` is an integer;
  - the normalisation at tilecoding.py:23, when `x`, the limits and a passed `offset_vec` are all integers; it can then pick a different tile.
- The coder requires every input to lie within its limits (`InLimits`), so out-of-range inputs are excluded.
  - Outside the limits the source still computes an index, which may fall in another tiling's slice or outside the buffer.
  - The slice and no-overlap properties then fail, so the model does not cover that case.
- The coder also requires a well-formed configuration (`WellFormed`):
  - at least one dimension;
  - `tilings >= 1`;
  - `low < high` in every dimension;
  - integer `offset_vec` entries of at least 1.

  The source fails on an empty configuration or zero tilings (indexing or division error), divides by zero on a zero range (reversed limits, `high < low`, would still compute in-range cells, but the model treats `high <= low` as an invalid configuration and excludes it), and accepts non-integer offsets, for which the padded sizes would not be integers. It also accepts an offset of 0. With no padding, an input at `x == high` lands one tile past the layer. `TileCodingScenario.UnpaddedOverflow` shows index 2 in a 2-entry buffer.
- The source's defaults (`step_size=0.1`, `offset_vec=None` meaning all ones) are not modelled. Callers pass every argument explicitly.
- numpy's 64-bit integers are modelled as unbounded integers. This affects `np.prod` of the padded dims (tilecoding.py:15), the buffer length `tilings * tiling_size` (tilecoding.py:16), the hash vector entries (tilecoding.py:20) and the `_tile_ind` array (tilecoding.py:17,25). numpy wraps these silently on overflow, or raises when a too-large value is stored. `TileGeometry.DotBound`, `TileGeometry.ActiveIndicesInSlices` and the constructor's buffer length therefore describe the source only while `tilings * Prod(dims + offset_vec) < 2^63`.
- numpy array shapes (the `[1, n]` row vectors, `hstack`, `repeat`, `diag`) are modelled as flat sequences with the same values.
- TileCoding.TileCoder.Update: its contract states the new weight buffer. The effect on the prediction (`pred + step_size * (val - pred)`) is stated on values by `TileWeights.StepSizeLaw` and `TileWeights.ErrorContraction`, not restated on the object.
- Convergence over many noisy samples is a statistical property and is not modelled. Only the exact effect of a single update is proved.
- The hash is not proved injective. The hash vector uses the unpadded dims as radices, so two different padded-grid cells can share an index within one tiling (`TileCodingScenario.UnitSquareCollision` shows one such pair). The model proves only that the index stays inside the tiling's slice.
- For the same reason, locality is stated only as "no shared active index, so the prediction is unchanged" (`TileWeights.UpdateIsLocal`). It is not stated as "far-apart inputs do not affect each other", because the source does not satisfy that. `TileCodingScenario.TwoTilingSharedTile` shows two inputs strictly inside the limits, more than one tile apart in both dimensions, that share a tile.
