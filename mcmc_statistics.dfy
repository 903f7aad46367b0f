/** The running chain statistics of the Markov-chain solver (`updateState`):
    the mean of the database points and the adaptive chain covariance of
    Haario et al. 2001, updated once per database entry. The solver's method
    updates its buffers in place; these functions say what it leaves there. */
module McmcStatistics {

  type Matrix = seq<seq<real>>

  predicate Square(m: Matrix, n: nat)
  {
    |m| == n && forall i :: 0 <= i < n ==> |m[i]| == n
  }

  predicate Symmetric(m: Matrix)
    requires Square(m, |m|)
  {
    forall i, j :: 0 <= i < |m| && 0 <= j < |m| ==> m[i][j] == m[j][i]
  }

  function Max(a: nat, b: nat): nat { if a < b then b else a }
  function Min(a: nat, b: nat): nat { if a < b then a else b }

  /** Coordinate `d` of the running mean once the `k`-th point `x` joins
      the `k - 1` points whose mean is `mean`. */
  function MeanEntry(mean: seq<real>, x: seq<real>, k: nat, d: nat): real
    requires k >= 1
    requires d < |mean| == |x|
  {
    (mean[d] * ((k - 1) as real) + x[d]) / (k as real)
  }

  function Mean(mean: seq<real>, x: seq<real>, k: nat): (r: seq<real>)
    requires k >= 1
    requires |mean| == |x|
    ensures |r| == |mean|
    ensures forall d :: 0 <= d < |r| ==> r[d] == MeanEntry(mean, x, k, d)
  {
    seq(|mean|, d requires 0 <= d < |mean| => MeanEntry(mean, x, k, d))
  }

  /** The first value of `tmpC[d][e]`, built from the old mean and the new
      point; the diagonal carries the regularising increment. */
  function Moment(mean: seq<real>, x: seq<real>, k: nat, increment: real, d: nat, e: nat): real
    requires d < |mean| == |x| && e < |mean|
  {
    (k as real) * mean[d] * mean[e] + x[d] * x[e] + (if d == e then increment else 0.0)
  }

  /** The scatter term `tmpC[d][e]`: the moment reduced by `(k + 1)` times
      the product of the new means. */
  function Scatter(mean: seq<real>, x: seq<real>, k: nat, increment: real, d: nat, e: nat): real
    requires k >= 1
    requires d < |mean| == |x| && e < |mean|
  {
    Moment(mean, x, k, increment, d, e) - ((k + 1) as real) * MeanEntry(mean, x, k, d) * MeanEntry(mean, x, k, e)
  }

  /** One covariance entry from the old entry `c` and its scatter term `t`:
      `(k - 1)/k * c + scaling/k * t`. */
  function Blend(k: nat, scaling: real, c: real, t: real): real
    requires k >= 1
  {
    ((k as real) - 1.0) / (k as real) * c + scaling / (k as real) * t
  }

  /** The new chain covariance. Each lower-triangle entry (diagonal included)
      is blended from its old value, and the upper triangle mirrors it. */
  function Covariance(cov: Matrix, mean: seq<real>, x: seq<real>, k: nat, scaling: real, increment: real): (r: Matrix)
    requires k >= 1
    requires Square(cov, |mean|) && |mean| == |x|
    ensures Square(r, |mean|)
  {
    seq(|mean|, i requires 0 <= i < |mean| =>
      seq(|mean|, j requires 0 <= j < |mean| =>
        Blend(k, scaling, cov[Max(i, j)][Min(i, j)], Scatter(mean, x, k, increment, Max(i, j), Min(i, j)))))
  }

  lemma ScatterSymmetric(mean: seq<real>, x: seq<real>, k: nat, increment: real, d: nat, e: nat)
    requires k >= 1
    requires d < |mean| == |x| && e < |mean|
    ensures Scatter(mean, x, k, increment, d, e) == Scatter(mean, x, k, increment, e, d)
  {
    var a, b := MeanEntry(mean, x, k, d), MeanEntry(mean, x, k, e);
    assert ((k + 1) as real) * a * b == ((k + 1) as real) * b * a;
    assert (k as real) * mean[d] * mean[e] == (k as real) * mean[e] * mean[d];
  }

  /** The updated covariance is symmetric, whatever the old one was. */
  lemma CovarianceSymmetric(cov: Matrix, mean: seq<real>, x: seq<real>, k: nat, scaling: real, increment: real)
    requires k >= 1
    requires Square(cov, |mean|) && |mean| == |x|
    ensures Symmetric(Covariance(cov, mean, x, k, scaling, increment))
  {
  }

  /** From a symmetric covariance, every entry (upper ones included) is the
      blend of its own old value and its own scatter term. */
  lemma CovarianceEntries(cov: Matrix, mean: seq<real>, x: seq<real>, k: nat, scaling: real, increment: real)
    requires k >= 1
    requires Square(cov, |mean|) && |mean| == |x|
    requires Symmetric(cov)
    ensures forall i, j :: 0 <= i < |mean| && 0 <= j < |mean| ==>
              Covariance(cov, mean, x, k, scaling, increment)[i][j]
              == Blend(k, scaling, cov[i][j], Scatter(mean, x, k, increment, i, j))
  {
    forall i, j | 0 <= i < |mean| && 0 <= j < |mean|
      ensures Covariance(cov, mean, x, k, scaling, increment)[i][j]
              == Blend(k, scaling, cov[i][j], Scatter(mean, x, k, increment, i, j))
    {
      ScatterSymmetric(mean, x, k, increment, i, j);
    }
  }

  // ---------------------------------------------------------------------
  // Running mean: the chain mean is the average of the database points.
  // ---------------------------------------------------------------------

  /** The sum of coordinate `d` over `points`. */
  function SumAt(points: seq<seq<real>>, d: nat): real
    requires forall p :: 0 <= p < |points| ==> d < |points[p]|
  {
    if points == [] then 0.0 else SumAt(points[..|points| - 1], d) + points[|points| - 1][d]
  }

  /** If `mean` averages the `k - 1` earlier points, the update averages
      those points and `x`. */
  lemma {:induction false} MeanIsRunningAverage(points: seq<seq<real>>, mean: seq<real>, x: seq<real>, d: nat)
    requires d < |mean| == |x|
    requires forall p :: 0 <= p < |points| ==> |points[p]| == |x|
    requires |points| > 0 ==> mean[d] == SumAt(points, d) / (|points| as real)
    ensures MeanEntry(mean, x, |points| + 1, d) == SumAt(points + [x], d) / ((|points| + 1) as real)
  {
    var k := |points| + 1;
    var all := points + [x];
    assert all[..|all| - 1] == points;
    assert SumAt(all, d) == SumAt(points, d) + x[d];
    if |points| > 0 {
      var m := |points| as real;
      assert mean[d] * m == SumAt(points, d);
    } else {
      assert SumAt(points, d) == 0.0;
    }
  }

  // ---------------------------------------------------------------------
  // The source as written: the upper entry is blended from the lower entry
  // that the line before has already overwritten, so for k >= 2 the chain
  // covariance stops being symmetric.
  // ---------------------------------------------------------------------

  function CovarianceAsWritten(cov: Matrix, mean: seq<real>, x: seq<real>, k: nat, scaling: real, increment: real): (r: Matrix)
    requires k >= 1
    requires Square(cov, |mean|) && |mean| == |x|
    ensures Square(r, |mean|)
    ensures forall i, j :: 0 <= j <= i < |mean| ==> r[i][j] == Covariance(cov, mean, x, k, scaling, increment)[i][j]
  {
    var lower := Covariance(cov, mean, x, k, scaling, increment);
    seq(|mean|, i requires 0 <= i < |mean| =>
      seq(|mean|, j requires 0 <= j < |mean| =>
        if j <= i then lower[i][j]
        else Blend(k, scaling, lower[j][i], Scatter(mean, x, k, increment, j, i))))
  }

  /** Two coordinates, the second database entry `(1, 1)` joining a mean
      `(0, 0)` with a zero covariance and scaling 1: the source leaves
      `0.125` below the diagonal and `0.1875` above it. */
  lemma AsymmetricCovarianceAsWritten()
    ensures var c := CovarianceAsWritten([[0.0, 0.0], [0.0, 0.0]], [0.0, 0.0], [1.0, 1.0], 2, 1.0, 0.0);
            c[1][0] == 0.125 && c[0][1] == 0.1875 && !Symmetric(c)
  {
    var mean, x := [0.0, 0.0], [1.0, 1.0];
    assert MeanEntry(mean, x, 2, 0) == 0.5 && MeanEntry(mean, x, 2, 1) == 0.5;
    assert Scatter(mean, x, 2, 0.0, 1, 0) == 0.25;
    var lower := Covariance([[0.0, 0.0], [0.0, 0.0]], mean, x, 2, 1.0, 0.0);
    assert lower[1][0] == Blend(2, 1.0, 0.0, 0.25) == 0.125;
    var c := CovarianceAsWritten([[0.0, 0.0], [0.0, 0.0]], mean, x, 2, 1.0, 0.0);
    assert c[0][1] == Blend(2, 1.0, 0.125, 0.25) == 0.1875;
  }
}
