/**
 * The weight side of the tile coder, on values: the prediction is the sum of
 * the weights gathered at the active indices, and an update adds one common
 * increment to every active weight. `Gather` and `Bump` follow numpy's fancy
 * indexing: `w[idx]` reads every listed position, and `w[idx] += d` reads the
 * old values, adds d and writes them back, so a position listed twice still
 * moves by d only once.
 */
module TileWeights {

  /** Every entry of idx is a valid position of a buffer of length len. */
  predicate Indexes(idx: seq<int>, len: nat)
  {
    forall k :: 0 <= k < |idx| ==> 0 <= idx[k] < len
  }

  /** numpy's `sum`. */
  function Sum(s: seq<real>): real
  {
    if |s| == 0 then 0.0 else Sum(s[..|s| - 1]) + s[|s| - 1]
  }

  /** numpy's fancy read `w[idx]`. */
  function Gather(w: seq<real>, idx: seq<int>): seq<real>
    requires Indexes(idx, |w|)
  {
    seq(|idx|, k requires 0 <= k < |idx| => w[idx[k]])
  }

  /** numpy's `w[idx] += d`: each listed position moves by d, every other one stays. */
  function Bump(w: seq<real>, idx: seq<int>, d: real): seq<real>
  {
    seq(|w|, j requires 0 <= j < |w| => if j in idx then w[j] + d else w[j])
  }

  /** The per-weight step of an update: alpha times the error of the prediction. */
  function Correction(alpha: real, val: real, pred: real): real
  {
    alpha * (val - pred)
  }

  /** How many entries of b name a position that also occurs in a. */
  function Hits(b: seq<int>, a: seq<int>): nat
  {
    if |b| == 0 then 0 else Hits(b[..|b| - 1], a) + (if b[|b| - 1] in a then 1 else 0)
  }

  lemma GatherPrefix(w: seq<real>, idx: seq<int>, n: nat)
    requires Indexes(idx, |w|) && n <= |idx|
    ensures Gather(w, idx)[..n] == Gather(w, idx[..n])
  {
  }

  /** A zeroed buffer predicts 0 wherever it is read. */
  lemma {:induction false} SumOfZeros(w: seq<real>, idx: seq<int>)
    requires Indexes(idx, |w|)
    requires forall j :: 0 <= j < |w| ==> w[j] == 0.0
    ensures Sum(Gather(w, idx)) == 0.0
  {
    if |idx| > 0 {
      var n := |idx| - 1;
      GatherPrefix(w, idx, n);
      SumOfZeros(w, idx[..n]);
    }
  }

  /** Reading b after bumping a by d adds d once for every entry of b that a touched. */
  lemma {:induction false} BumpedSum(w: seq<real>, a: seq<int>, b: seq<int>, d: real)
    requires Indexes(b, |w|)
    ensures Sum(Gather(Bump(w, a, d), b)) == Sum(Gather(w, b)) + (Hits(b, a) as real) * d
  {
    if |b| > 0 {
      var n := |b| - 1;
      GatherPrefix(w, b, n);
      GatherPrefix(Bump(w, a, d), b, n);
      BumpedSum(w, a, b[..n], d);
    }
  }

  lemma {:induction false} HitsAll(b: seq<int>, a: seq<int>)
    requires forall k :: 0 <= k < |b| ==> b[k] in a
    ensures Hits(b, a) == |b|
  {
    if |b| > 0 {
      HitsAll(b[..|b| - 1], a);
    }
  }

  lemma {:induction false} HitsNone(b: seq<int>, a: seq<int>)
    requires forall k :: 0 <= k < |b| ==> b[k] !in a
    ensures Hits(b, a) == 0
  {
    if |b| > 0 {
      HitsNone(b[..|b| - 1], a);
    }
  }

  /**
   * Adding d at every active index moves the prediction there by |a| * d,
   * whether or not a repeats an index.
   */
  lemma UpdateLaw(w: seq<real>, a: seq<int>, d: real)
    requires Indexes(a, |w|)
    ensures Sum(Gather(Bump(w, a, d), a)) == Sum(Gather(w, a)) + (|a| as real) * d
  {
    BumpedSum(w, a, a, d);
    HitsAll(a, a);
  }

  /**
   * With alpha = stepSize / tilings, one update moves the prediction by
   * stepSize times the error, however many tilings there are.
   */
  lemma StepSizeLaw(w: seq<real>, a: seq<int>, stepSize: real, val: real)
    requires Indexes(a, |w|) && |a| >= 1
    ensures var pred := Sum(Gather(w, a));
            Sum(Gather(Bump(w, a, Correction(stepSize / (|a| as real), val, pred)), a)) == pred + stepSize * (val - pred)
  {
    var d := Correction(stepSize / (|a| as real), val, Sum(Gather(w, a)));
    UpdateLaw(w, a, d);
    CancelTilings(|a| as real, stepSize, val - Sum(Gather(w, a)));
    assert (|a| as real) * d == stepSize * (val - Sum(Gather(w, a)));
  }

  lemma CancelTilings(t: real, s: real, e: real)
    requires t > 0.0
    ensures t * (s / t * e) == s * e
  {
    assert t * (s / t) == s;
  }

  /**
   * The same update scales the error by (1 - stepSize), so the error strictly
   * shrinks when 0 < stepSize < 2.
   */
  lemma ErrorContraction(w: seq<real>, a: seq<int>, stepSize: real, val: real)
    requires Indexes(a, |w|) && |a| >= 1
    ensures var pred := Sum(Gather(w, a));
            var post := Sum(Gather(Bump(w, a, Correction(stepSize / (|a| as real), val, pred)), a));
            && val - post == (1.0 - stepSize) * (val - pred)
            && (0.0 < stepSize < 2.0 && val != pred ==> Abs(val - post) < Abs(val - pred))
  {
    var pred := Sum(Gather(w, a));
    var post := Sum(Gather(Bump(w, a, Correction(stepSize / (|a| as real), val, pred)), a));
    StepSizeLaw(w, a, stepSize, val);
    Contract(pred, post, val, stepSize);
  }

  lemma Contract(pred: real, post: real, val: real, s: real)
    requires post == pred + s * (val - pred)
    ensures val - post == (1.0 - s) * (val - pred)
    ensures 0.0 < s < 2.0 && val != pred ==> Abs(val - post) < Abs(val - pred)
  {
    Shrinks(val - pred, s, val - post);
  }

  /** Scaling a nonzero error e by (1 - s) with 0 < s < 2 makes it strictly smaller. */
  lemma Shrinks(e: real, s: real, r: real)
    requires r == e - s * e
    ensures 0.0 < s < 2.0 && e != 0.0 ==> Abs(r) < Abs(e)
  {
    if 0.0 < s < 2.0 && e != 0.0 {
      if e > 0.0 {
        ShrinksPos(e, s, r);
      } else {
        assert -r == -e - s * -e;
        ShrinksPos(-e, s, -r);
      }
    }
  }

  lemma ShrinksPos(e: real, s: real, r: real)
    requires r == e - s * e && 0.0 < s < 2.0 && e > 0.0
    ensures -e < r < e
  {
    MulPos(s, e);
    MulPos(2.0 - s, e);
    assert (2.0 - s) * e == 2.0 * e - s * e;
  }

  lemma MulPos(x: real, y: real)
    requires x > 0.0 && y > 0.0
    ensures x * y > 0.0
  {
  }

  /** A fresh single-tiling coder with step size 1 fits a sample exactly in one update. */
  lemma SingleTilingExact(w: seq<real>, a: seq<int>, val: real)
    requires Indexes(a, |w|) && |a| == 1
    requires forall j :: 0 <= j < |w| ==> w[j] == 0.0
    ensures Sum(Gather(w, a)) == 0.0
    ensures Sum(Gather(Bump(w, a, Correction(1.0, val, 0.0)), a)) == val
  {
    SumOfZeros(w, a);
    StepSizeLaw(w, a, 1.0, val);
  }

  /** An update at a leaves the prediction at b alone when a and b share no active index. */
  lemma UpdateIsLocal(w: seq<real>, a: seq<int>, b: seq<int>, d: real)
    requires Indexes(b, |w|)
    requires forall k :: 0 <= k < |b| ==> b[k] !in a
    ensures Sum(Gather(Bump(w, a, d), b)) == Sum(Gather(w, b))
  {
    BumpedSum(w, a, b, d);
    HitsNone(b, a);
  }

  function Abs(r: real): real
  {
    if r < 0.0 then -r else r
  }
}
