/** The delayed-rejection Markov-chain Monte Carlo solver (`Korali::Solver::MCMC`):
    a generation loop over counters and buffers that are updated in place.

    The random generators, the exponential, the prior and the model are
    oracles given at construction: `gaussian(i)` and `uniform(i)` are the
    i-th draws of the two generators, `exp` is the C library exponential,
    `logPrior` the problem's log-prior and `fitness` the log-likelihood the
    model returns for an evaluated sample. The source's flat `N*N` and
    `levels*N` buffers are two-dimensional arrays here. */
module McmcSolver {
  import opened Wrappers
  import opened Json
  import opened McmcConfig
  import opened DelayedRejection
  import opened McmcStatistics
  import opened McmcCheckpoint

  /** `-std::numeric_limits<double>::max()`, the leader's log-likelihood
      before any candidate has been accepted. */
  const LowestDouble: real := -179769313486231570814527423731704356798070567525844996598917476803157260780028538760589558632766878171540458953514382464234321326889464182768467546703537516986049910576551282076245490090389328944075868508455133942304583236903222948165808559332123348274797826204144723168738177180919299881250404026184124858368.0

  /** `sum_{e < k} row[e] * z[e]`, accumulated from `e = 0` upwards. */
  function Dot(row: seq<real>, z: seq<real>, k: nat): real
    requires k <= |row| && k <= |z|
  {
    if k == 0 then 0.0 else Dot(row, z, k - 1) + row[k - 1] * z[k - 1]
  }

  /** The point handed to the model: log-space coordinates exponentiated. */
  function Transform(point: seq<real>, logSpaces: seq<bool>, exp: real -> real): (r: seq<real>)
    requires |point| == |logSpaces|
    ensures |r| == |point|
    ensures forall d :: 0 <= d < |r| ==> r[d] == (if logSpaces[d] then exp(point[d]) else point[d])
  {
    seq(|point|, d requires 0 <= d < |point| => if logSpaces[d] then exp(point[d]) else point[d])
  }

  /** The acceptance test of `acceptReject`: certain acceptance at alpha 1,
      otherwise a uniform draw below alpha. */
  predicate Accepts(alpha: real, u: real)
  {
    alpha == 1.0 || alpha > u
  }

  /** With draws in `[0, 1)`, a candidate is accepted with probability alpha:
      exactly the draws below alpha accept it. */
  lemma AcceptsIffBelowAlpha(alpha: real, u: real)
    requires 0.0 <= alpha <= 1.0 && 0.0 <= u < 1.0
    ensures Accepts(alpha, u) <==> u < alpha
  {
  }

  function Row(a: array2<real>, i: nat): (r: seq<real>)
    reads a
    requires i < a.Length0
    ensures |r| == a.Length1
    ensures forall j :: 0 <= j < a.Length1 ==> r[j] == a[i, j]
  {
    seq(a.Length1, j requires 0 <= j < a.Length1 reads a => a[i, j])
  }

  /** The first `k` rows of `a`. */
  function RowsOf(a: array2<real>, k: nat): (r: seq<seq<real>>)
    reads a
    requires k <= a.Length0
    ensures |r| == k
    ensures forall i :: 0 <= i < k ==> r[i] == Row(a, i)
  {
    seq(k, i requires 0 <= i < k reads a => Row(a, i))
  }

  /** All rows of `a`. */
  function Grid(a: array2<real>): (r: Matrix)
    reads a
    ensures |r| == a.Length0 && forall i :: 0 <= i < |r| ==> r[i] == Row(a, i)
  {
    RowsOf(a, a.Length0)
  }

  /** The `count` draws of `generator` from draw number `from` on. */
  function Draws(generator: nat -> real, from: nat, count: nat): (r: seq<real>)
    ensures |r| == count
    ensures forall i :: 0 <= i < count ==> r[i] == generator(from + i)
  {
    seq(count, i requires 0 <= i < count => generator(from + i))
  }

  lemma ScatterFromMoment(mean: seq<real>, x: seq<real>, k: nat, increment: real, d: nat, e: nat)
    requires k >= 1
    requires d < |mean| == |x| && e < |mean|
    ensures Scatter(mean, x, k, increment, d, e)
            == Moment(mean, x, k, increment, d, e) - ((k + 1) as real) * MeanEntry(mean, x, k, d) * MeanEntry(mean, x, k, e)
  {
  }

  lemma BlendIs(k: nat, scaling: real, c: real, t: real)
    requires k >= 1
    ensures Blend(k, scaling, c, t) == ((k as real) - 1.0) / (k as real) * c + scaling / (k as real) * t
  {
  }

  /** The number of rounds that accepted their candidate. */
  function AcceptedCount(accepted: seq<bool>): (r: nat)
    ensures r <= |accepted|
  {
    if accepted == [] then 0
    else AcceptedCount(accepted[..|accepted| - 1]) + (if accepted[|accepted| - 1] then 1 else 0)
  }

  /** The last round that accepted its candidate, if any. */
  function LastAccepted(accepted: seq<bool>): (r: Option<nat>)
    ensures r.None? <==> forall i :: 0 <= i < |accepted| ==> !accepted[i]
    ensures r.Some? ==> r.value < |accepted| && accepted[r.value]
                        && forall i :: r.value < i < |accepted| ==> !accepted[i]
  {
    if accepted == [] then None
    else if accepted[|accepted| - 1] then Some(|accepted| - 1)
    else LastAccepted(accepted[..|accepted| - 1])
  }

  /** One more round: the count and the last acceptance move with it. */
  lemma AcceptedStep(accepted: seq<bool>, a: bool)
    ensures AcceptedCount(accepted + [a]) == AcceptedCount(accepted) + (if a then 1 else 0)
    ensures LastAccepted(accepted + [a]) == if a then Some(|accepted|) else LastAccepted(accepted)
  {
    assert (accepted + [a])[..|accepted|] == accepted;
  }

  datatype Status = Finished | OutOfFuel | Fault(msg: string)

  class Mcmc {
    const n: nat
    const settings: Settings
    const exp: real -> real
    const gaussian: nat -> real
    const uniform: nat -> real
    const logPrior: seq<real> -> real
    const fitness: seq<real> -> real

    const clPoint: array<real>
    const ccPoints: array2<real>
    const ccLogPriors: array<real>
    const ccLogLikelihoods: array<real>
    const transformedSamples: array2<real>
    const databasePoints: array2<real>
    const databaseFitness: array<real>
    const chainMean: array<real>
    const chainCov: array2<real>
    const covarianceMatrix: array2<real>
    const tmpC: array2<real>
    const z: array<real>

    var countevals: nat
    var countgens: nat
    var naccept: nat
    var chainLength: nat
    var rejections: nat
    var databaseEntries: nat
    var isFinished: bool
    var terminationReason: string
    var clLogLikelihood: real
    var acceptanceRateProposals: real
    /** Draws taken so far from the Gaussian and the uniform generator. */
    var gaussianDraws: nat
    var uniformDraws: nat
    /** The checkpoints handed to the engine, oldest first. */
    var checkpoints: seq<Json>

    /** The number of rejection levels and of database slots: the buffers
        are sized from the configured values. */
    function Levels(): nat { settings.rejectionLevels }
    function Capacity(): nat { settings.chainLength }

    ghost predicate Valid()
      reads this
    {
      && McmcConfig.Valid(settings, n)
      && PositiveExp(exp)
      && clPoint.Length == n && z.Length == n && chainMean.Length == n
      && ccPoints.Length0 == Levels() && ccPoints.Length1 == n
      && transformedSamples.Length0 == Levels() && transformedSamples.Length1 == n
      && ccLogPriors.Length == Levels() && ccLogLikelihoods.Length == Levels()
      && databasePoints.Length0 == Capacity() && databasePoints.Length1 == n
      && databaseFitness.Length == Capacity()
      && chainCov.Length0 == n && chainCov.Length1 == n
      && covarianceMatrix.Length0 == n && covarianceMatrix.Length1 == n
      && tmpC.Length0 == n && tmpC.Length1 == n
      && clPoint != z && clPoint != chainMean && clPoint != ccLogPriors
      && clPoint != ccLogLikelihoods && clPoint != databaseFitness && z != chainMean
      && z != ccLogPriors && z != ccLogLikelihoods && z != databaseFitness
      && chainMean != ccLogPriors && chainMean != ccLogLikelihoods && chainMean != databaseFitness
      && ccLogPriors != ccLogLikelihoods && ccLogPriors != databaseFitness && ccLogLikelihoods != databaseFitness
      && ccPoints != transformedSamples && ccPoints != databasePoints && ccPoints != chainCov
      && ccPoints != covarianceMatrix && transformedSamples != databasePoints && transformedSamples != chainCov
      && transformedSamples != covarianceMatrix && databasePoints != chainCov && databasePoints != covarianceMatrix
      && chainCov != covarianceMatrix && tmpC != ccPoints && tmpC != transformedSamples
      && tmpC != databasePoints && tmpC != chainCov && tmpC != covarianceMatrix
      && rejections <= Levels()
      && databaseEntries <= Capacity()
    }

    /** The constructor of a run that is not restored from a checkpoint:
        the leader starts at the initial means, the proposal covariance is
        the diagonal of the initial standard deviations, and every counter,
        the generation counter `chainLength` included, starts at 0. */
    constructor (n: nat, settings: Settings, exp: real -> real, gaussian: nat -> real, uniform: nat -> real,
                 logPrior: seq<real> -> real, fitness: seq<real> -> real)
      requires McmcConfig.Valid(settings, n) && PositiveExp(exp)
      ensures Valid()
      ensures this.n == n && this.settings == settings && this.exp == exp && this.gaussian == gaussian
      ensures this.uniform == uniform && this.logPrior == logPrior && this.fitness == fitness
      ensures clPoint[..] == settings.initialMeans
      ensures forall d, e :: 0 <= d < n && 0 <= e < n ==>
                covarianceMatrix[d, e] == (if d == e then settings.standardDeviations[d] else 0.0)
      ensures forall d, e :: 0 <= d < n && 0 <= e < n ==> chainCov[d, e] == 0.0
      ensures chainMean[..] == seq(n, d => 0.0)
      ensures !isFinished && countevals == 0 && naccept == 0 && countgens == 0
      ensures chainLength == 0 && rejections == 0 && databaseEntries == 0
      ensures clLogLikelihood == LowestDouble && acceptanceRateProposals == 1.0
      ensures gaussianDraws == 0 && uniformDraws == 0 && checkpoints == []
    {
      this.n := n;
      this.settings := settings;
      this.exp := exp;
      this.gaussian := gaussian;
      this.uniform := uniform;
      this.logPrior := logPrior;
      this.fitness := fitness;
      var levels := settings.rejectionLevels;
      var capacity := settings.chainLength;
      clPoint := new real[n](d requires 0 <= d < n => settings.initialMeans[d]);
      z := new real[n](d => 0.0);
      chainMean := new real[n](d => 0.0);
      ccPoints := new real[levels, n]((r, d) => 0.0);
      transformedSamples := new real[levels, n]((r, d) => 0.0);
      ccLogPriors := new real[levels](r => 0.0);
      ccLogLikelihoods := new real[levels](r => 0.0);
      databasePoints := new real[capacity, n]((i, d) => 0.0);
      databaseFitness := new real[capacity](i => 0.0);
      chainCov := new real[n, n]((d, e) => 0.0);
      tmpC := new real[n, n]((d, e) => 0.0);
      covarianceMatrix := new real[n, n]((d, e) requires 0 <= d < n =>
                                          if d == e then settings.standardDeviations[d] else 0.0);
      isFinished := false;
      terminationReason := "";
      countevals, naccept, countgens := 0, 0, 0;
      chainLength, rejections, databaseEntries := 0, 0, 0;
      clLogLikelihood := LowestDouble;
      acceptanceRateProposals := 1.0;
      gaussianDraws, uniformDraws := 0, 0;
      checkpoints := [];
    }

    /** `processSample`: the candidate's log-likelihood is the model's value
        plus the candidate's log-prior. */
    method ProcessSample(sampleIdx: nat, f: real)
      requires Valid() && sampleIdx < Levels()
      modifies ccLogLikelihoods
      ensures ccLogLikelihoods[..] == old(ccLogLikelihoods[..])[sampleIdx := f + ccLogPriors[sampleIdx]]
    {
      ccLogLikelihoods[sampleIdx] := f + ccLogPriors[sampleIdx];
    }

    /** The delayed-rejection acceptance probability of candidate `trial`
        against the current leader. */
    function AcceptanceProbability(trial: nat): (r: real)
      reads this, ccLogLikelihoods
      requires Valid() && trial < Levels()
      ensures 0.0 <= r <= 1.0
    {
      Alpha(exp, clLogLikelihood, ccLogLikelihoods[..], trial).alpha
    }

    /** `acceptReject`: the uniform generator is consulted only when alpha is
        below 1; on acceptance the candidate becomes the leader. */
    method AcceptReject(trial: nat) returns (accepted: bool)
      requires Valid() && trial < Levels()
      modifies this`naccept, this`clLogLikelihood, this`uniformDraws, clPoint
      ensures Valid()
      ensures var alpha := old(AcceptanceProbability(trial));
              && uniformDraws == old(uniformDraws) + (if alpha == 1.0 then 0 else 1)
              && accepted == Accepts(alpha, uniform(old(uniformDraws)))
      ensures accepted ==> naccept == old(naccept) + 1 && clLogLikelihood == ccLogLikelihoods[trial]
                           && clPoint[..] == Row(ccPoints, trial)
      ensures !accepted ==> naccept == old(naccept) && clLogLikelihood == old(clLogLikelihood)
                            && clPoint[..] == old(clPoint[..])
    {
      var alpha := AcceptanceProbability(trial);
      if alpha == 1.0 {
        accepted := true;
      } else {
        accepted := alpha > uniform(uniformDraws);
        uniformDraws := uniformDraws + 1;
      }
      if accepted {
        naccept := naccept + 1;
        clLogLikelihood := ccLogLikelihoods[trial];
        forall d | 0 <= d < n {
          clPoint[d] := ccPoints[trial, d];
        }
      }
    }

    /** `updateDatabase`: the point goes into slot `databaseEntries`, which
        then counts one more; earlier slots keep their contents. */
    method UpdateDatabase(point: seq<real>, loglik: real)
      requires Valid() && |point| == n && databaseEntries < Capacity()
      modifies this`databaseEntries, databasePoints, databaseFitness
      ensures Valid()
      ensures databaseEntries == old(databaseEntries) + 1
      ensures Row(databasePoints, old(databaseEntries)) == point
      ensures databaseFitness[old(databaseEntries)] == loglik
      ensures forall i :: 0 <= i < Capacity() && i != old(databaseEntries) ==>
                Row(databasePoints, i) == old(Row(databasePoints, i)) && databaseFitness[i] == old(databaseFitness[i])
    {
      forall d | 0 <= d < n {
        databasePoints[databaseEntries, d] := point[d];
      }
      databaseFitness[databaseEntries] := loglik;
      databaseEntries := databaseEntries + 1;
    }

    /** Whether proposals use the learned chain covariance: only with adaptive
        sampling on and once the database is past the non-adaption period. */
    function UsesChainCovariance(): bool
      reads this
    {
      settings.useAdaptiveSampling && databaseEntries > settings.nonAdaptionPeriod + settings.burnIn
    }

    /** `sampleCandidate`: `z` takes the next `n` Gaussian draws and candidate
        `sampleIdx` becomes `leader + M z`, `M` the fixed proposal covariance
        or the chain covariance. */
    /** The first loop of `sampleCandidate`: `z` takes the next `n` Gaussian
        draws and candidate `sampleIdx` is reset to zero. */
    method DrawDirection(sampleIdx: nat)
      requires Valid() && sampleIdx < Levels()
      modifies this`gaussianDraws, z, ccPoints
      ensures Valid()
      ensures gaussianDraws == old(gaussianDraws) + n
      ensures z[..] == Draws(gaussian, old(gaussianDraws), n)
      ensures forall d :: 0 <= d < n ==> ccPoints[sampleIdx, d] == 0.0
      ensures forall r, d :: 0 <= r < Levels() && r != sampleIdx && 0 <= d < n ==> ccPoints[r, d] == old(ccPoints[r, d])
    {
      for d := 0 to n
        invariant gaussianDraws == old(gaussianDraws)
        invariant forall d' :: 0 <= d' < d ==> z[d'] == gaussian(gaussianDraws + d') && ccPoints[sampleIdx, d'] == 0.0
        invariant forall r, d' :: 0 <= r < Levels() && r != sampleIdx && 0 <= d' < n ==> ccPoints[r, d'] == old(ccPoints[r, d'])
      {
        z[d] := gaussian(gaussianDraws + d);
        ccPoints[sampleIdx, d] := 0.0;
      }
      assert z[..] == Draws(gaussian, gaussianDraws, n);
      gaussianDraws := gaussianDraws + n;
    }

    /** The inner loop of the product `M z`: coordinate `d` of candidate
        `sampleIdx` accumulates row `d` of `m` against `z`. */
    method AccumulateRow(sampleIdx: nat, m: array2<real>, d: nat)
      requires Valid() && sampleIdx < Levels() && d < n
      requires m == chainCov || m == covarianceMatrix
      modifies ccPoints
      ensures ccPoints[sampleIdx, d] == old(ccPoints[sampleIdx, d]) + Dot(Row(m, d), z[..], n)
      ensures forall r, e :: 0 <= r < Levels() && 0 <= e < n && (r != sampleIdx || e != d) ==> ccPoints[r, e] == old(ccPoints[r, e])
    {
      for e := 0 to n
        invariant ccPoints[sampleIdx, d] == old(ccPoints[sampleIdx, d]) + Dot(Row(m, d), z[..], e)
        invariant forall r, e' :: 0 <= r < Levels() && 0 <= e' < n && (r != sampleIdx || e' != d) ==> ccPoints[r, e'] == old(ccPoints[r, e'])
      {
        ccPoints[sampleIdx, d] := ccPoints[sampleIdx, d] + m[d, e] * z[e];
      }
    }

    /** `sampleCandidate`: candidate `sampleIdx` becomes `leader + M z` for
        fresh Gaussian draws `z`, `M` the fixed proposal covariance or, once
        adaptation has started, the chain covariance. */
    method SampleCandidate(sampleIdx: nat)
      requires Valid() && sampleIdx < Levels()
      modifies this`gaussianDraws, z, ccPoints
      ensures Valid()
      ensures gaussianDraws == old(gaussianDraws) + n
      ensures z[..] == Draws(gaussian, old(gaussianDraws), n)
      ensures var m := if UsesChainCovariance() then chainCov else covarianceMatrix;
              forall d :: 0 <= d < n ==> ccPoints[sampleIdx, d] == Dot(Row(m, d), z[..], n) + clPoint[d]
      ensures forall r, d :: 0 <= r < Levels() && r != sampleIdx && 0 <= d < n ==> ccPoints[r, d] == old(ccPoints[r, d])
    {
      DrawDirection(sampleIdx);
      var m := if UsesChainCovariance() then chainCov else covarianceMatrix;
      for d := 0 to n
        invariant gaussianDraws == old(gaussianDraws) + n
        invariant z[..] == Draws(gaussian, old(gaussianDraws), n)
        invariant forall d' :: 0 <= d' < d ==> ccPoints[sampleIdx, d'] == Dot(Row(m, d'), z[..], n)
        invariant forall d' :: d <= d' < n ==> ccPoints[sampleIdx, d'] == 0.0
        invariant forall r, d' :: 0 <= r < Levels() && r != sampleIdx && 0 <= d' < n ==> ccPoints[r, d'] == old(ccPoints[r, d'])
      {
        AccumulateRow(sampleIdx, m, d);
      }
      AddLeader(sampleIdx, m);
    }

    /** The last loop of `sampleCandidate`: the leader is added to candidate
        `sampleIdx`, which held `M z`. */
    method AddLeader(sampleIdx: nat, m: array2<real>)
      requires Valid() && sampleIdx < Levels()
      requires m == chainCov || m == covarianceMatrix
      requires forall d :: 0 <= d < n ==> ccPoints[sampleIdx, d] == Dot(Row(m, d), z[..], n)
      modifies ccPoints
      ensures forall d :: 0 <= d < n ==> ccPoints[sampleIdx, d] == Dot(Row(m, d), z[..], n) + clPoint[d]
      ensures forall r, d :: 0 <= r < Levels() && r != sampleIdx && 0 <= d < n ==> ccPoints[r, d] == old(ccPoints[r, d])
    {
      for d := 0 to n
        invariant forall d' :: 0 <= d' < d ==> ccPoints[sampleIdx, d'] == Dot(Row(m, d'), z[..], n) + clPoint[d']
        invariant forall d' :: d <= d' < n ==> ccPoints[sampleIdx, d'] == Dot(Row(m, d'), z[..], n)
        invariant forall r, d' :: 0 <= r < Levels() && r != sampleIdx && 0 <= d' < n ==> ccPoints[r, d'] == old(ccPoints[r, d'])
      {
        ccPoints[sampleIdx, d] := ccPoints[sampleIdx, d] + clPoint[d];
      }
    }

    /** `generateCandidate`: one proposal, counted, and its log-prior stored.
        The prior's finiteness check is computed but its result ignored, so a
        candidate outside the prior's support is evaluated like any other. */
    method GenerateCandidate(sampleIdx: nat)
      requires Valid() && sampleIdx < Levels()
      modifies this`gaussianDraws, this`countgens, z, ccPoints, ccLogPriors
      ensures Valid()
      ensures countgens == old(countgens) + 1
      ensures gaussianDraws == old(gaussianDraws) + n
      ensures var m := if UsesChainCovariance() then chainCov else covarianceMatrix;
              forall d :: 0 <= d < n ==> ccPoints[sampleIdx, d] == Dot(Row(m, d), z[..], n) + clPoint[d]
      ensures forall r, d :: 0 <= r < Levels() && r != sampleIdx && 0 <= d < n ==> ccPoints[r, d] == old(ccPoints[r, d])
      ensures ccLogPriors[..] == old(ccLogPriors[..])[sampleIdx := logPrior(Row(ccPoints, sampleIdx))]
    {
      SampleCandidate(sampleIdx);
      countgens := countgens + 1;
      ccLogPriors[sampleIdx] := logPrior(Row(ccPoints, sampleIdx));
    }

    /** `evaluateSample` for candidate `rejections`: the model sees the
        candidate with its log-space coordinates exponentiated, and its value
        is processed at once. */
    method EvaluateSample()
      requires Valid() && rejections < Levels()
      modifies this`countevals, transformedSamples, ccLogLikelihoods
      ensures Valid()
      ensures countevals == old(countevals) + 1
      ensures Row(transformedSamples, rejections) == Transform(Row(ccPoints, rejections), settings.logSpaces, exp)
      ensures forall r, d :: 0 <= r < Levels() && r != rejections && 0 <= d < n ==>
                transformedSamples[r, d] == old(transformedSamples[r, d])
      ensures ccLogLikelihoods[..] == old(ccLogLikelihoods[..])[rejections :=
                fitness(Transform(Row(ccPoints, rejections), settings.logSpaces, exp)) + ccLogPriors[rejections]]
    {
      forall d | 0 <= d < n {
        transformedSamples[rejections, d] := if settings.logSpaces[d] then exp(ccPoints[rejections, d]) else ccPoints[rejections, d];
      }
      assert Row(transformedSamples, rejections) == Transform(Row(ccPoints, rejections), settings.logSpaces, exp);
      ProcessSample(rejections, fitness(Row(transformedSamples, rejections)));
      countevals := countevals + 1;
    }

    /** `checkTermination`: the evaluation cap and the chain length each set
        the finished flag, which is never cleared; when both hold, the
        chain-length reason is the one kept. */
    method CheckTermination() returns (finished: bool)
      requires Valid()
      modifies this`isFinished, this`terminationReason
      ensures Valid()
      ensures isFinished == (old(isFinished) || ReachedEvaluationCap() || databaseEntries == chainLength)
      ensures finished == isFinished
      ensures terminationReason == (if databaseEntries == chainLength then "Chainlength reached."
                                    else if ReachedEvaluationCap() then "Max Function Evaluations reached"
                                    else old(terminationReason))
    {
      if ReachedEvaluationCap() {
        isFinished := true;
        terminationReason := "Max Function Evaluations reached";
      }
      if databaseEntries == chainLength {
        isFinished := true;
        terminationReason := "Chainlength reached.";
      }
      finished := isFinished;
    }

    function ReachedEvaluationCap(): bool
      reads this
    {
      settings.maxFunctionEvaluationsEnabled && countevals >= settings.maxFunctionEvaluations
    }

    // -------------------------------------------------------------------
    // updateState, phase by phase: `tmpC` gets the moments of the old mean
    // and the leader, the mean moves, `tmpC` loses the products of the new
    // mean, and the chain covariance blends in `tmpC`.
    // -------------------------------------------------------------------

    /** The moments: `tmpC[d][e]` for `e < d` and its mirror `tmpC[e][d]`,
        then the diagonal with the increment. */
    method FillMoments()
      requires Valid()
      modifies tmpC
      ensures forall i, j :: 0 <= i < n && 0 <= j < n ==>
                tmpC[i, j] == Moment(chainMean[..], clPoint[..], databaseEntries, settings.chainCovarianceIncrement, Max(i, j), Min(i, j))
    {
      var k := databaseEntries as real;
      ghost var mean, x, inc := chainMean[..], clPoint[..], settings.chainCovarianceIncrement;
      for d := 0 to n
        invariant forall i, j :: 0 <= i < n && 0 <= j < n && i != j && Max(i, j) < d ==>
                    tmpC[i, j] == Moment(mean, x, databaseEntries, inc, Max(i, j), Min(i, j))
      {
        for e := 0 to d
          invariant forall i, j :: 0 <= i < n && 0 <= j < n && i != j && Max(i, j) < d ==>
                      tmpC[i, j] == Moment(mean, x, databaseEntries, inc, Max(i, j), Min(i, j))
          invariant forall j :: 0 <= j < e ==>
                      tmpC[d, j] == Moment(mean, x, databaseEntries, inc, d, j) && tmpC[j, d] == Moment(mean, x, databaseEntries, inc, d, j)
        {
          tmpC[d, e] := k * chainMean[d] * chainMean[e] + clPoint[d] * clPoint[e];
          tmpC[e, d] := k * chainMean[d] * chainMean[e] + clPoint[d] * clPoint[e];
        }
      }
      for d := 0 to n
        invariant forall i, j :: 0 <= i < n && 0 <= j < n && i != j ==>
                    tmpC[i, j] == Moment(mean, x, databaseEntries, inc, Max(i, j), Min(i, j))
        invariant forall i :: 0 <= i < d ==> tmpC[i, i] == Moment(mean, x, databaseEntries, inc, i, i)
      {
        tmpC[d, d] := k * chainMean[d] * chainMean[d] + clPoint[d] * clPoint[d] + settings.chainCovarianceIncrement;
      }
    }

    /** The chain mean: `(mean[d] (k - 1) + leader[d]) / k`. */
    method MoveMean()
      requires Valid() && databaseEntries >= 1
      modifies chainMean
      ensures chainMean[..] == Mean(old(chainMean[..]), clPoint[..], databaseEntries)
    {
      ghost var m0, x := chainMean[..], clPoint[..];
      for d := 0 to n
        invariant clPoint[..] == x
        invariant forall i :: 0 <= i < d ==> chainMean[i] == MeanEntry(m0, x, databaseEntries, i)
        invariant forall i :: d <= i < n ==> chainMean[i] == m0[i]
      {
        assert chainMean[d] == m0[d] && clPoint[d] == x[d];
        chainMean[d] := (chainMean[d] * ((databaseEntries - 1) as real) + clPoint[d]) / (databaseEntries as real);
      }
    }

    /** Row `d` of the subtraction: `tmpC[d][e]` and `tmpC[e][d]` for
        `e < d` each lose `(k + 1) mean[d] mean[e]`. */
    method SubtractRow(d: nat)
      requires Valid() && d < n
      modifies tmpC
      ensures forall e :: 0 <= e < d ==>
                && tmpC[d, e] == old(tmpC[d, e]) - ((databaseEntries + 1) as real) * chainMean[d] * chainMean[e]
                && tmpC[e, d] == old(tmpC[e, d]) - ((databaseEntries + 1) as real) * chainMean[d] * chainMean[e]
      ensures forall i, j :: 0 <= i < n && 0 <= j < n && !(i == d && j < d) && !(j == d && i < d) ==> tmpC[i, j] == old(tmpC[i, j])
    {
      var k1 := (databaseEntries + 1) as real;
      for e := 0 to d
        invariant forall j :: 0 <= j < e ==>
                    && tmpC[d, j] == old(tmpC[d, j]) - k1 * chainMean[d] * chainMean[j]
                    && tmpC[j, d] == old(tmpC[j, d]) - k1 * chainMean[d] * chainMean[j]
        invariant forall i, j :: 0 <= i < n && 0 <= j < n && !(i == d && j < e) && !(j == d && i < e) ==> tmpC[i, j] == old(tmpC[i, j])
      {
        var p := k1 * chainMean[d] * chainMean[e];
        tmpC[d, e] := tmpC[d, e] - p;
        tmpC[e, d] := tmpC[e, d] - p;
      }
    }

    /** `tmpC[d][e]` minus `(k + 1)` times the product of the new means,
        which leaves the scatter term of the old mean. */
    method SubtractMeanProducts(ghost mean: seq<real>)
      requires Valid() && databaseEntries >= 1 && |mean| == n
      requires chainMean[..] == Mean(mean, clPoint[..], databaseEntries)
      requires forall i, j :: 0 <= i < n && 0 <= j < n ==>
                 tmpC[i, j] == Moment(mean, clPoint[..], databaseEntries, settings.chainCovarianceIncrement, Max(i, j), Min(i, j))
      modifies tmpC
      ensures forall i, j :: 0 <= i < n && 0 <= j < n ==>
                tmpC[i, j] == Scatter(mean, clPoint[..], databaseEntries, settings.chainCovarianceIncrement, Max(i, j), Min(i, j))
    {
      hide Scatter, Moment, MeanEntry, Mean;
      var k1 := (databaseEntries + 1) as real;
      ghost var x, inc, k := clPoint[..], settings.chainCovarianceIncrement, databaseEntries;
      for d := 0 to n
        invariant forall i, j :: 0 <= i < n && 0 <= j < n && i != j && Max(i, j) < d ==>
                    tmpC[i, j] == Scatter(mean, x, k, inc, Max(i, j), Min(i, j))
        invariant forall i, j :: 0 <= i < n && 0 <= j < n && (i == j || Max(i, j) >= d) ==>
                    tmpC[i, j] == Moment(mean, x, k, inc, Max(i, j), Min(i, j))
      {
        SubtractRow(d);
        forall e | 0 <= e < d
          ensures tmpC[d, e] == Scatter(mean, x, k, inc, d, e) && tmpC[e, d] == Scatter(mean, x, k, inc, d, e)
        {
          assert Max(d, e) == Max(e, d) == d && Min(d, e) == Min(e, d) == e;
          ScatterFromMoment(mean, x, k, inc, d, e);
        }
      }
      for d := 0 to n
        invariant forall i, j :: 0 <= i < n && 0 <= j < n && i != j ==>
                    tmpC[i, j] == Scatter(mean, x, k, inc, Max(i, j), Min(i, j))
        invariant forall i :: 0 <= i < d ==> tmpC[i, i] == Scatter(mean, x, k, inc, i, i)
        invariant forall i :: d <= i < n ==> tmpC[i, i] == Moment(mean, x, k, inc, i, i)
      {
        ScatterFromMoment(mean, x, k, inc, d, d);
        tmpC[d, d] := tmpC[d, d] - k1 * chainMean[d] * chainMean[d];
      }
    }

    /** Row `d` of the covariance blend: each `chainCov[d][e]` with `e < d`
        blends its old value with `tmpC[d][e]`, and `chainCov[e][d]` copies
        it. */
    method BlendRow(d: nat)
      requires Valid() && databaseEntries >= 1 && d < n
      modifies chainCov
      ensures forall e :: 0 <= e < d ==>
                && chainCov[d, e] == Blend(databaseEntries, settings.chainCovarianceScaling, old(chainCov[d, e]), tmpC[d, e])
                && chainCov[e, d] == chainCov[d, e]
      ensures forall i, j :: 0 <= i < n && 0 <= j < n && !(i == d && j < d) && !(j == d && i < d) ==> chainCov[i, j] == old(chainCov[i, j])
    {
      var k := databaseEntries as real;
      var scaling := settings.chainCovarianceScaling;
      for e := 0 to d
        invariant forall j :: 0 <= j < e ==>
                    && chainCov[d, j] == Blend(databaseEntries, scaling, old(chainCov[d, j]), tmpC[d, j])
                    && chainCov[j, d] == chainCov[d, j]
        invariant forall i, j :: 0 <= i < n && 0 <= j < n && !(i == d && j < e) && !(j == d && i < e) ==> chainCov[i, j] == old(chainCov[i, j])
      {
        chainCov[d, e] := (k - 1.0) / k * chainCov[d, e] + scaling / k * tmpC[d, e];
        chainCov[e, d] := chainCov[d, e];
      }
    }

    /** The chain covariance: every lower entry and the diagonal blend their
        old value with `tmpC`; each upper entry copies the lower entry just
        computed, so the matrix stays symmetric. */
    method BlendCovariance(ghost mean: seq<real>)
      requires Valid() && databaseEntries >= 1 && |mean| == n
      requires forall i, j :: 0 <= i < n && 0 <= j < n ==>
                 tmpC[i, j] == Scatter(mean, clPoint[..], databaseEntries, settings.chainCovarianceIncrement, Max(i, j), Min(i, j))
      modifies chainCov
      ensures forall i, j :: 0 <= i < n && 0 <= j < n ==>
                chainCov[i, j] == Blend(databaseEntries, settings.chainCovarianceScaling, old(chainCov[Max(i, j), Min(i, j)]),
                                        Scatter(mean, clPoint[..], databaseEntries, settings.chainCovarianceIncrement, Max(i, j), Min(i, j)))
    {
      hide Scatter, Blend;
      var k := databaseEntries as real;
      var scaling := settings.chainCovarianceScaling;
      ghost var x, inc := clPoint[..], settings.chainCovarianceIncrement;
      for d := 0 to n
        invariant forall i, j :: 0 <= i < n && 0 <= j < n && i != j && Max(i, j) < d ==>
                    chainCov[i, j] == Blend(databaseEntries, scaling, old(chainCov[Max(i, j), Min(i, j)]),
                                            Scatter(mean, x, databaseEntries, inc, Max(i, j), Min(i, j)))
        invariant forall i, j :: 0 <= i < n && 0 <= j < n && (i == j || Max(i, j) >= d) ==> chainCov[i, j] == old(chainCov[i, j])
      {
        BlendRow(d);
        forall e | 0 <= e < d
          ensures chainCov[e, d] == chainCov[d, e]
                  == Blend(databaseEntries, scaling, old(chainCov[d, e]), Scatter(mean, x, databaseEntries, inc, d, e))
        {
          assert Max(d, e) == d && Min(d, e) == e;
        }
      }
      for d := 0 to n
        invariant forall i, j :: 0 <= i < n && 0 <= j < n && i != j ==>
                    chainCov[i, j] == Blend(databaseEntries, scaling, old(chainCov[Max(i, j), Min(i, j)]),
                                            Scatter(mean, x, databaseEntries, inc, Max(i, j), Min(i, j)))
        invariant forall i :: 0 <= i < d ==>
                    chainCov[i, i] == Blend(databaseEntries, scaling, old(chainCov[i, i]), Scatter(mean, x, databaseEntries, inc, i, i))
        invariant forall i :: d <= i < n ==> chainCov[i, i] == old(chainCov[i, i])
      {
        BlendIs(databaseEntries, scaling, chainCov[d, d], tmpC[d, d]);
        chainCov[d, d] := (k - 1.0) / k * chainCov[d, d] + scaling / k * tmpC[d, d];
      }
    }

    /** `updateState`: the acceptance rate becomes `naccept / chainLength`;
        with at least one database entry, the mean and the chain covariance
        take the leader in as the `k`-th point, `k = databaseEntries`. */
    method UpdateState()
      requires Valid() && chainLength >= 1
      modifies this`acceptanceRateProposals, chainMean, chainCov, tmpC
      ensures Valid()
      ensures acceptanceRateProposals == (naccept as real) / (chainLength as real)
      ensures databaseEntries < 1 ==> chainMean[..] == old(chainMean[..]) && Grid(chainCov) == old(Grid(chainCov))
      ensures databaseEntries >= 1 ==>
                && chainMean[..] == Mean(old(chainMean[..]), clPoint[..], databaseEntries)
                && Grid(chainCov) == Covariance(old(Grid(chainCov)), old(chainMean[..]), clPoint[..], databaseEntries,
                                                settings.chainCovarianceScaling, settings.chainCovarianceIncrement)
                && Symmetric(Grid(chainCov))
    {
      acceptanceRateProposals := (naccept as real) / (chainLength as real);
      if databaseEntries < 1 {
        return;
      }
      ghost var mean := chainMean[..];
      ghost var cov := Grid(chainCov);
      FillMoments();
      MoveMean();
      SubtractMeanProducts(mean);
      BlendCovariance(mean);
      ghost var want := Covariance(cov, mean, clPoint[..], databaseEntries,
                                   settings.chainCovarianceScaling, settings.chainCovarianceIncrement);
      assert Grid(chainCov) == want by {
        forall i | 0 <= i < n ensures Grid(chainCov)[i] == want[i] {
          assert forall j :: 0 <= j < n ==> Grid(chainCov)[i][j] == chainCov[i, j] == want[i][j];
        }
      }
      CovarianceSymmetric(cov, mean, clPoint[..], databaseEntries, settings.chainCovarianceScaling, settings.chainCovarianceIncrement);
    }

    // -------------------------------------------------------------------
    // Checkpoints.
    // -------------------------------------------------------------------

    /** The state fields `getConfiguration` writes under "State". */
    function Snap(): (s: Snapshot)
      reads this, clPoint, ccPoints, ccLogLikelihoods, databasePoints, databaseFitness, chainMean, chainCov, covarianceMatrix
      requires Valid()
      ensures Shaped(s, n)
      ensures s.functionEvaluations == countevals && s.chainLength == chainLength && s.finished == isFinished
      ensures s.databaseEntries == databaseEntries && s.rejections == rejections
    {
      Snapshot(countevals, naccept, chainLength, databaseEntries, acceptanceRateProposals, rejections, isFinished,
               clPoint[..], RowsOf(ccPoints, rejections), ccLogLikelihoods[..rejections],
               RowsOf(databasePoints, databaseEntries), databaseFitness[..databaseEntries],
               chainMean[..], Grid(chainCov), Grid(covarianceMatrix), clLogLikelihood)
    }

    /** Whether `saveState` hands a checkpoint to the engine. The modulus is
        evaluated only when the run is not finished. */
    function SaveDue(): bool
      reads this
      requires isFinished || settings.resultOutputFrequency > 0
    {
      isFinished || chainLength % settings.resultOutputFrequency == 0
    }

    /** `saveState`: a checkpoint of the current state is appended when the
        run is finished or `chainLength` is a multiple of the output
        frequency. A zero frequency on an unfinished run divides by zero. */
    method SaveState() returns (o: Outcome)
      requires Valid()
      modifies this`checkpoints
      ensures Valid()
      ensures o.Fail? <==> !isFinished && settings.resultOutputFrequency == 0
      ensures o.Fail? ==> checkpoints == old(checkpoints)
      ensures o.Pass? ==> checkpoints == old(checkpoints) + (if SaveDue() then [WriteState(Snap())] else [])
      ensures o.Pass? && SaveDue() ==> ReadState(checkpoints[|checkpoints| - 1], n) == Ok(Snap())
      ensures o.Pass? && SaveDue() ==> ReadStateAsWritten(checkpoints[|checkpoints| - 1], n).Err?
      ensures old(checkpoints) <= checkpoints && |checkpoints| <= |old(checkpoints)| + 1
    {
      if !isFinished && settings.resultOutputFrequency == 0 {
        return Fail("integer division by zero");
      }
      if SaveDue() {
        checkpoints := checkpoints + [WriteState(Snap())];
        RestoreRoundTrip(Snap(), n);
        RestoreAsWrittenFails(Snap(), n);
      }
      return Pass;
    }

    /** The counters, the flag and the leader's log-likelihood of a
        restored state. */
    method LoadCounters(s: Snapshot)
      requires Valid() && s.rejections <= Levels() && s.databaseEntries <= Capacity()
      modifies this`countevals, this`naccept, this`chainLength, this`databaseEntries, this`acceptanceRateProposals
      modifies this`rejections, this`isFinished, this`clLogLikelihood
      ensures Valid()
      ensures countevals == s.functionEvaluations && naccept == s.acceptedSamples && chainLength == s.chainLength
      ensures databaseEntries == s.databaseEntries && acceptanceRateProposals == s.acceptanceRate
      ensures rejections == s.rejections && isFinished == s.finished && clLogLikelihood == s.leaderFitness
    {
      countevals, naccept, chainLength, databaseEntries := s.functionEvaluations, s.acceptedSamples, s.chainLength, s.databaseEntries;
      acceptanceRateProposals, rejections, isFinished := s.acceptanceRate, s.rejections, s.finished;
      clLogLikelihood := s.leaderFitness;
    }

    /** The leader, the candidates and their log-likelihoods of a restored
        state. */
    method LoadLeader(s: Snapshot)
      requires Valid() && Shaped(s, n) && s.rejections <= Levels()
      modifies clPoint, ccPoints, ccLogLikelihoods
      ensures clPoint[..] == s.leader
      ensures RowsOf(ccPoints, s.rejections) == s.candidates
      ensures ccLogLikelihoods[..s.rejections] == s.candidatesFitness
    {
      forall d | 0 <= d < n {
        clPoint[d] := s.leader[d];
      }
      forall r, d | 0 <= r < s.rejections && 0 <= d < n {
        ccPoints[r, d] := s.candidates[r][d];
      }
      forall r | 0 <= r < s.rejections {
        ccLogLikelihoods[r] := s.candidatesFitness[r];
      }
      assert RowsOf(ccPoints, s.rejections) == s.candidates by {
        forall r | 0 <= r < s.rejections ensures Row(ccPoints, r) == s.candidates[r] { }
      }
    }

    /** The database of a restored state. */
    method LoadDatabase(s: Snapshot)
      requires Valid() && Shaped(s, n) && s.databaseEntries <= Capacity()
      modifies databasePoints, databaseFitness
      ensures RowsOf(databasePoints, s.databaseEntries) == s.databasePoints
      ensures databaseFitness[..s.databaseEntries] == s.databaseFitness
    {
      forall i, d | 0 <= i < s.databaseEntries && 0 <= d < n {
        databasePoints[i, d] := s.databasePoints[i][d];
      }
      forall i | 0 <= i < s.databaseEntries {
        databaseFitness[i] := s.databaseFitness[i];
      }
      assert RowsOf(databasePoints, s.databaseEntries) == s.databasePoints by {
        forall i | 0 <= i < s.databaseEntries ensures Row(databasePoints, i) == s.databasePoints[i] { }
      }
    }

    /** The chain mean, the chain covariance and the proposal covariance of a
        restored state. */
    method LoadCovariances(s: Snapshot)
      requires Valid() && Shaped(s, n)
      modifies chainMean, chainCov, covarianceMatrix
      ensures chainMean[..] == s.chainMean
      ensures Grid(chainCov) == s.chainCovariance && Grid(covarianceMatrix) == s.covarianceMatrix
    {
      forall d | 0 <= d < n {
        chainMean[d] := s.chainMean[d];
      }
      forall d, e | 0 <= d < n && 0 <= e < n {
        chainCov[d, e] := s.chainCovariance[d][e];
      }
      forall d, e | 0 <= d < n && 0 <= e < n {
        covarianceMatrix[d, e] := s.covarianceMatrix[d][e];
      }
      assert Grid(chainCov) == s.chainCovariance by {
        forall d | 0 <= d < n ensures Row(chainCov, d) == s.chainCovariance[d] { }
      }
      assert Grid(covarianceMatrix) == s.covarianceMatrix by {
        forall d | 0 <= d < n ensures Row(covarianceMatrix, d) == s.covarianceMatrix[d] { }
      }
    }

    /** Every state field of a restored state, in `setState`'s order. */
    method Load(s: Snapshot)
      requires Valid() && Shaped(s, n) && s.rejections <= Levels() && s.databaseEntries <= Capacity()
      modifies this`countevals, this`naccept, this`chainLength, this`databaseEntries, this`acceptanceRateProposals
      modifies this`rejections, this`isFinished, this`clLogLikelihood
      modifies clPoint, ccPoints, ccLogLikelihoods, databasePoints, databaseFitness, chainMean, chainCov, covarianceMatrix
      ensures Valid()
      ensures countevals == s.functionEvaluations && naccept == s.acceptedSamples && chainLength == s.chainLength
      ensures databaseEntries == s.databaseEntries && acceptanceRateProposals == s.acceptanceRate
      ensures rejections == s.rejections && isFinished == s.finished && clLogLikelihood == s.leaderFitness
      ensures clPoint[..] == s.leader && RowsOf(ccPoints, rejections) == s.candidates
      ensures ccLogLikelihoods[..rejections] == s.candidatesFitness
      ensures RowsOf(databasePoints, databaseEntries) == s.databasePoints && databaseFitness[..databaseEntries] == s.databaseFitness
      ensures chainMean[..] == s.chainMean && Grid(chainCov) == s.chainCovariance && Grid(covarianceMatrix) == s.covarianceMatrix
      ensures Snap() == s
    {
      LoadCounters(s);
      LoadLeader(s);
      LoadDatabase(s);
      LoadCovariances(s);
    }

    /** `setState` on the "State" object `state`, under the keys the source
        reads ("FunctionEvaluations" and "Candidate"), which are not the
        keys `getConfiguration` writes: a checkpoint from `SaveState` is
        never restored. A checkpoint whose counts exceed the buffers is
        refused (the source would write past them). */
    method Restore(state: Json) returns (o: Outcome)
      requires Valid()
      modifies this`countevals, this`naccept, this`chainLength, this`databaseEntries, this`acceptanceRateProposals
      modifies this`rejections, this`isFinished, this`clLogLikelihood
      modifies clPoint, ccPoints, ccLogLikelihoods, databasePoints, databaseFitness, chainMean, chainCov, covarianceMatrix
      ensures Valid()
      ensures o.Pass? <==> ReadStateAsWritten(state, n).Ok?
                           && ReadStateAsWritten(state, n).value.rejections <= Levels()
                           && ReadStateAsWritten(state, n).value.databaseEntries <= Capacity()
      ensures o.Pass? ==> Snap() == ReadStateAsWritten(state, n).value
      ensures o.Fail? ==> unchanged(this)
    {
      hide ReadStateAsWritten, ReadStateWith;
      var r := ReadStateAsWritten(state, n);
      if r.Err? {
        return Fail(r.msg);
      }
      var s := r.value;
      if s.rejections > Levels() || s.databaseEntries > Capacity() {
        return Fail("checkpoint larger than the buffers");
      }
      Load(s);
      return Pass;
    }

    // -------------------------------------------------------------------
    // The generation loop.
    // -------------------------------------------------------------------

    /** One round of the inner loop of `run`: generate candidate
        `rejections`, evaluate it and accept or reject it against the leader
        with the delayed-rejection probability of that level. Only slot
        `rejections` of the candidates changes. */
    method Round() returns (accepted: bool)
      requires Valid() && rejections < Levels()
      modifies this`countevals, this`countgens, this`gaussianDraws, this`uniformDraws
      modifies this`naccept, this`clLogLikelihood
      modifies z, ccPoints, ccLogPriors, ccLogLikelihoods, transformedSamples, clPoint
      ensures Valid()
      ensures countevals == old(countevals) + 1 && countgens == old(countgens) + 1
      ensures gaussianDraws == old(gaussianDraws) + n
      ensures ccLogLikelihoods[rejections]
              == fitness(Transform(Row(ccPoints, rejections), settings.logSpaces, exp)) + logPrior(Row(ccPoints, rejections))
      ensures var alpha := Alpha(exp, old(clLogLikelihood), ccLogLikelihoods[..], rejections).alpha;
              && uniformDraws == old(uniformDraws) + (if alpha == 1.0 then 0 else 1)
              && accepted == Accepts(alpha, uniform(old(uniformDraws)))
      ensures accepted ==> naccept == old(naccept) + 1 && clLogLikelihood == ccLogLikelihoods[rejections]
                           && clPoint[..] == Row(ccPoints, rejections)
      ensures !accepted ==> naccept == old(naccept) && clLogLikelihood == old(clLogLikelihood)
                            && clPoint[..] == old(clPoint[..])
      ensures forall r :: 0 <= r < Levels() && r != rejections ==>
                Row(ccPoints, r) == old(Row(ccPoints, r)) && ccLogLikelihoods[r] == old(ccLogLikelihoods[r])
    {
      GenerateCandidate(rejections);
      EvaluateSample();
      accepted := AcceptReject(rejections);
    }

    /** The inner loop of `run`: exactly `rejectionLevels` rounds of
        generate, evaluate and accept/reject. An acceptance does not end the
        loop. `accepted[r]` tells whether round `r` accepted: the leader is
        then the candidate of the last accepting round, or the old leader
        when no round accepted. Counters outside the rounds and the database
        stay as they are. */
    method Rounds() returns (ghost accepted: seq<bool>)
      requires Valid()
      modifies this`rejections, this`countevals, this`countgens, this`gaussianDraws, this`uniformDraws
      modifies this`naccept, this`clLogLikelihood
      modifies z, ccPoints, ccLogPriors, ccLogLikelihoods, transformedSamples, clPoint
      ensures Valid()
      ensures rejections == Levels() && |accepted| == Levels()
      ensures countevals == old(countevals) + Levels() && countgens == old(countgens) + Levels()
      ensures gaussianDraws == old(gaussianDraws) + Levels() * n
      ensures old(uniformDraws) <= uniformDraws <= old(uniformDraws) + Levels()
      ensures naccept == old(naccept) + AcceptedCount(accepted)
      ensures LastAccepted(accepted).None? ==> clPoint[..] == old(clPoint[..]) && clLogLikelihood == old(clLogLikelihood)
      ensures LastAccepted(accepted).Some? ==>
                var r := LastAccepted(accepted).value;
                clPoint[..] == Row(ccPoints, r) && clLogLikelihood == ccLogLikelihoods[r]
    {
      hide Alpha, Accepts, Transform, AcceptedCount, LastAccepted;
      rejections := 0;
      accepted := [];
      while rejections < Levels()
        invariant Valid()
        invariant |accepted| == rejections
        invariant countevals == old(countevals) + rejections && countgens == old(countgens) + rejections
        invariant gaussianDraws == old(gaussianDraws) + rejections * n
        invariant old(uniformDraws) <= uniformDraws <= old(uniformDraws) + rejections
        invariant naccept == old(naccept) + AcceptedCount(accepted)
        invariant LastAccepted(accepted).None? ==> clPoint[..] == old(clPoint[..]) && clLogLikelihood == old(clLogLikelihood)
        invariant LastAccepted(accepted).Some? ==>
                    var r := LastAccepted(accepted).value;
                    clPoint[..] == Row(ccPoints, r) && clLogLikelihood == ccLogLikelihoods[r]
        decreases Levels() - rejections
      {
        ghost var before := accepted;
        label L:
        var a := Round();
        AcceptedStep(before, a);
        accepted := before + [a];
        if !a && LastAccepted(before).Some? {
          var r := LastAccepted(before).value;
          assert Row(ccPoints, r) == old@L(Row(ccPoints, r)) && ccLogLikelihoods[r] == old@L(ccLogLikelihoods[r]);
        }
        rejections := rejections + 1;
      }
    }

    /** One pass of `run`'s loop body up to `updateState`: exactly
        `rejectionLevels` rounds of generate, evaluate and accept/reject, with
        no early exit on acceptance; then the chain grows by one and, past
        the burn-in, the leader is appended to the database, whose mean and
        covariance then take it in. Appending to a full database is a fault
        (the source writes past the buffer). */
    method Generation() returns (o: Outcome, ghost accepted: seq<bool>)
      requires Valid()
      modifies this, z, ccPoints, ccLogPriors, ccLogLikelihoods, transformedSamples, clPoint
      modifies databasePoints, databaseFitness, chainMean, chainCov, tmpC
      ensures Valid()
      ensures rejections == Levels() && |accepted| == Levels()
      ensures countevals == old(countevals) + Levels() && countgens == old(countgens) + Levels()
      ensures gaussianDraws == old(gaussianDraws) + Levels() * n
      ensures naccept == old(naccept) + AcceptedCount(accepted)
      ensures LastAccepted(accepted).None? ==> clPoint[..] == old(clPoint[..]) && clLogLikelihood == old(clLogLikelihood)
      ensures LastAccepted(accepted).Some? ==>
                var r := LastAccepted(accepted).value;
                clPoint[..] == Row(ccPoints, r) && clLogLikelihood == ccLogLikelihoods[r]
      ensures chainLength == old(chainLength) + 1
      ensures isFinished == old(isFinished) && terminationReason == old(terminationReason) && checkpoints == old(checkpoints)
      ensures o.Fail? <==> chainLength > settings.burnIn && old(databaseEntries) == Capacity()
      ensures o.Pass? ==> databaseEntries == old(databaseEntries) + (if chainLength > settings.burnIn then 1 else 0)
      ensures o.Pass? && chainLength > settings.burnIn ==>
                Row(databasePoints, old(databaseEntries)) == clPoint[..] && databaseFitness[old(databaseEntries)] == clLogLikelihood
      ensures o.Pass? ==> forall i :: 0 <= i < old(databaseEntries) ==>
                Row(databasePoints, i) == old(Row(databasePoints, i)) && databaseFitness[i] == old(databaseFitness[i])
      ensures o.Pass? ==> acceptanceRateProposals == (naccept as real) / (chainLength as real)
      ensures o.Pass? && databaseEntries < 1 ==> chainMean[..] == old(chainMean[..]) && Grid(chainCov) == old(Grid(chainCov))
      ensures o.Pass? && databaseEntries >= 1 ==>
                && chainMean[..] == Mean(old(chainMean[..]), clPoint[..], databaseEntries)
                && Grid(chainCov) == Covariance(old(Grid(chainCov)), old(chainMean[..]), clPoint[..], databaseEntries,
                                                settings.chainCovarianceScaling, settings.chainCovarianceIncrement)
    {
      accepted := Rounds();
      chainLength := chainLength + 1;
      if chainLength > settings.burnIn {
        if databaseEntries == Capacity() {
          return Fail("database overflow"), accepted;
        }
        UpdateDatabase(clPoint[..], clLogLikelihood);
      }
      UpdateState();
      return Pass, accepted;
    }

    /** One pass of `run`'s loop body: a generation and then `saveState`,
        which appends a checkpoint of the new state when one is due. */
    method Advance() returns (o: Outcome, ghost accepted: seq<bool>)
      requires Valid()
      modifies this, z, ccPoints, ccLogPriors, ccLogLikelihoods, transformedSamples, clPoint
      modifies databasePoints, databaseFitness, chainMean, chainCov, tmpC
      ensures Valid()
      ensures |accepted| == Levels()
      ensures countevals == old(countevals) + Levels() && countgens == old(countgens) + Levels()
      ensures naccept == old(naccept) + AcceptedCount(accepted)
      ensures LastAccepted(accepted).None? ==> clPoint[..] == old(clPoint[..]) && clLogLikelihood == old(clLogLikelihood)
      ensures LastAccepted(accepted).Some? ==>
                var r := LastAccepted(accepted).value;
                clPoint[..] == Row(ccPoints, r) && clLogLikelihood == ccLogLikelihoods[r]
      ensures chainLength == old(chainLength) + 1
      ensures isFinished == old(isFinished)
      ensures o.Fail? <==> (chainLength > settings.burnIn && old(databaseEntries) == Capacity())
                           || (!isFinished && settings.resultOutputFrequency == 0)
      ensures o.Fail? ==> checkpoints == old(checkpoints)
      ensures o.Pass? ==> databaseEntries == old(databaseEntries) + (if chainLength > settings.burnIn then 1 else 0)
      ensures o.Pass? && chainLength > settings.burnIn ==>
                Row(databasePoints, old(databaseEntries)) == clPoint[..] && databaseFitness[old(databaseEntries)] == clLogLikelihood
      ensures o.Pass? ==> checkpoints == old(checkpoints) + (if SaveDue() then [WriteState(Snap())] else [])
      ensures old(checkpoints) <= checkpoints && |checkpoints| <= |old(checkpoints)| + 1
    {
      o, accepted := Generation();
      if o.Pass? {
        o := SaveState();
      }
    }

    /** `run` with at most `fuel` generations: a checkpoint first, then
        generations until `checkTermination` holds, each followed by a
        checkpoint. `generations` counts the generations started. Unless a
        fault stops it, the run ends finished exactly when the termination
        test holds on its final state. */
    method Run(fuel: nat) returns (status: Status, generations: nat)
      requires Valid()
      modifies this, z, ccPoints, ccLogPriors, ccLogLikelihoods, transformedSamples, clPoint
      modifies databasePoints, databaseFitness, chainMean, chainCov, tmpC
      ensures Valid()
      ensures generations <= fuel
      ensures countevals == old(countevals) + generations * Levels() && countgens == old(countgens) + generations * Levels()
      ensures chainLength == old(chainLength) + generations
      ensures old(isFinished) ==> isFinished && generations == 0
      ensures !status.Fault? ==> isFinished == (old(isFinished) || ReachedEvaluationCap() || databaseEntries == chainLength)
      ensures status.Finished? ==> isFinished
      ensures status.OutOfFuel? ==> generations == fuel && !isFinished
      ensures !status.Fault? ==> old(checkpoints) <= checkpoints && |checkpoints| <= |old(checkpoints)| + generations + 1
      ensures old(databaseEntries == chainLength) ==> generations == 0
      ensures old(databaseEntries == chainLength) && settings.resultOutputFrequency > 0 ==> status.Finished?
    {
      hide Snap, WriteState, LastAccepted, AcceptedCount, Mean, Covariance, Grid, Row;
      generations := 0;
      var o := SaveState();
      if o.Fail? {
        return Fault(o.msg), 0;
      }
      var finished := CheckTermination();
      while !finished && generations < fuel
        invariant Valid()
        invariant generations <= fuel
        invariant countevals == old(countevals) + generations * Levels() && countgens == old(countgens) + generations * Levels()
        invariant chainLength == old(chainLength) + generations
        invariant finished == isFinished
        invariant old(isFinished) ==> isFinished
        invariant old(databaseEntries == chainLength) ==> finished && generations == 0
        invariant old(isFinished) ==> generations == 0
        invariant finished == (old(isFinished) || ReachedEvaluationCap() || databaseEntries == chainLength)
        invariant old(checkpoints) <= checkpoints && |checkpoints| <= |old(checkpoints)| + generations + 1
        decreases fuel - generations
      {
        ghost var accepted;
        o, accepted := Advance();
        generations := generations + 1;
        if o.Fail? {
          return Fault(o.msg), generations;
        }
        finished := CheckTermination();
      }
      status := if finished then Finished else OutOfFuel;
    }
  }
}
