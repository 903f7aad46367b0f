/** The delayed-rejection acceptance probability of the Markov-chain solver
    (`recursiveAlpha`, the recursive formula of Trias et al. 2009).

    Log-likelihoods are `real`s. The C library exponential is the parameter
    `exp`; the only fact the model relies on is that it is positive. */
module DelayedRejection {
  import opened Wrappers

  ghost predicate PositiveExp(exp: real -> real)
  {
    forall x :: exp(x) > 0.0
  }

  /** `std::min(1.0, x)`. */
  function Min1(x: real): (r: real)
    ensures r <= 1.0 && (r == x || r == 1.0)
  {
    if x < 1.0 then x else 1.0
  }

  /** `numerator / denom` clipped at 1, for a positive numerator: a zero
      denominator gives +infinity in IEEE arithmetic, which `std::min` clips. */
  function Ratio(num: real, den: real): (r: real)
    ensures r <= 1.0
    ensures num >= 0.0 && den >= 0.0 ==> r >= 0.0
  {
    if den == 0.0 then 1.0
    else
      QuotientNonnegative(num, den);
      Min1(num / den)
  }

  lemma QuotientNonnegative(num: real, den: real)
    requires den != 0.0
    ensures num >= 0.0 && den >= 0.0 ==> num / den >= 0.0
  {
  }

  lemma ProductBounds(a: real, b: real)
    ensures 0.0 <= a && 0.0 <= b ==> 0.0 <= a * b
    ensures 0.0 <= a <= 1.0 && 0.0 <= b <= 1.0 ==> a * b <= 1.0
  {
    if 0.0 <= a <= 1.0 && 0.0 <= b <= 1.0 {
      assert a * (1.0 - b) >= 0.0;
    }
  }

  /** The temporary copy `revLlks[i] = logliks[n-1-i]`, i < n. */
  function ReversedPrefix(l: seq<real>, n: nat): (r: seq<real>)
    requires n <= |l|
    ensures |r| == n
    ensures forall i :: 0 <= i < n ==> r[i] == l[n - 1 - i]
  {
    seq(n, i requires 0 <= i < n => l[n - 1 - i])
  }

  /** What one level returns: the acceptance probability and the value left
      in the `denom` out-parameter. */
  datatype Level = Level(alpha: real, denom: real)

  /** One level `n >= 1` from its parts: `e = exp(l[n])`, the probability `s`
      that every level of the reversed chain rejects, and the level below. A
      vanishing numerator short-cuts to 0; the denominator is
      `denom(n-1) * (1 - alpha(n-1))` in both cases. */
  function NextLevel(e: real, s: real, prev: Level): (r: Level)
    ensures 0.0 <= e && 0.0 <= s && 0.0 <= prev.alpha <= 1.0 && 0.0 <= prev.denom ==>
            0.0 <= r.alpha <= 1.0 && 0.0 <= r.denom
  {
    var num := e * s;
    var den := prev.denom * (1.0 - prev.alpha);
    ProductBounds(e, s);
    ProductBounds(prev.denom, 1.0 - prev.alpha);
    if num == 0.0 then Level(0.0, den) else Level(Ratio(num, den), den)
  }

  /** Acceptance probability of level `n` for the chain `llk0, l[0], ..., l[n]`,
      with `denom` always assigned (see `AlphaAsWritten` for the source's
      early return that leaves it unassigned). */
  function Alpha(exp: real -> real, llk0: real, l: seq<real>, n: nat): (r: Level)
    requires PositiveExp(exp)
    requires n < |l|
    ensures 0.0 <= r.alpha <= 1.0
    ensures 0.0 <= r.denom
    decreases n, 1
  {
    if n == 0 then
      Level(Min1(exp(l[0] - llk0)), exp(llk0))
    else
      NextLevel(exp(l[n]), Survival(exp, l[n], ReversedPrefix(l, n), n), Alpha(exp, llk0, l, n - 1))
  }

  /** The product `(1 - alpha_0) * ... * (1 - alpha_{k-1})` of the levels of
      the chain `base, rev[0], ...`: the probability that all of them reject. */
  function Survival(exp: real -> real, base: real, rev: seq<real>, k: nat): (r: real)
    requires PositiveExp(exp)
    requires k <= |rev|
    ensures 0.0 <= r <= 1.0
    decreases k, 0
  {
    if k == 0 then 1.0
    else
      var s := Survival(exp, base, rev, k - 1);
      var a := Alpha(exp, base, rev, k - 1).alpha;
      ProductBounds(s, 1.0 - a);
      s * (1.0 - a)
  }

  // One-step unfoldings, used by the inductive proofs below, which hide
  // every function body to keep the nested products out of the solver's way.

  lemma AlphaBase(exp: real -> real, llk0: real, l: seq<real>)
    requires PositiveExp(exp)
    requires 0 < |l|
    ensures Alpha(exp, llk0, l, 0) == Level(Min1(exp(l[0] - llk0)), exp(llk0))
  {
  }

  lemma AlphaStep(exp: real -> real, llk0: real, l: seq<real>, n: nat)
    requires PositiveExp(exp)
    requires 0 < n < |l|
    ensures Alpha(exp, llk0, l, n)
            == NextLevel(exp(l[n]), Survival(exp, l[n], ReversedPrefix(l, n), n), Alpha(exp, llk0, l, n - 1))
  {
  }

  lemma SurvivalBase(exp: real -> real, base: real, rev: seq<real>)
    requires PositiveExp(exp)
    ensures Survival(exp, base, rev, 0) == 1.0
    ensures SurvivalAsWritten(exp, base, rev, 0) == Some(1.0)
  {
  }

  lemma SurvivalStep(exp: real -> real, base: real, rev: seq<real>, k: nat)
    requires PositiveExp(exp)
    requires 0 < k <= |rev|
    ensures Survival(exp, base, rev, k)
            == Survival(exp, base, rev, k - 1) * (1.0 - Alpha(exp, base, rev, k - 1).alpha)
  {
  }

  /** The numerator of level `n >= 1`: `exp(l[n])` times the probability that
      every level of the reversed chain `l[n], l[n-1], ..., l[0]` rejects. */
  function Numerator(exp: real -> real, l: seq<real>, n: nat): real
    requires PositiveExp(exp)
    requires n < |l|
  {
    exp(l[n]) * Survival(exp, l[n], ReversedPrefix(l, n), n)
  }

  /** Level 0 is the plain Metropolis ratio, and the denominator starts at
      `exp(llk0)`; an uphill or level move is always accepted. */
  lemma MetropolisLevel(exp: real -> real, llk0: real, l: seq<real>)
    requires PositiveExp(exp)
    requires forall x :: x >= 0.0 ==> exp(x) >= 1.0
    requires |l| > 0
    ensures Alpha(exp, llk0, l, 0).denom == exp(llk0)
    ensures Alpha(exp, llk0, l, 0).alpha == Min1(exp(l[0] - llk0))
    ensures l[0] >= llk0 ==> Alpha(exp, llk0, l, 0).alpha == 1.0
  {
    if l[0] >= llk0 {
      assert exp(l[0] - llk0) >= 1.0;
    }
  }

  /** A level whose numerator vanishes returns 0; otherwise it is the clipped
      ratio of the numerator to `denom(n-1) * (1 - alpha(n-1))`. */
  lemma LevelShape(exp: real -> real, llk0: real, l: seq<real>, n: nat)
    requires PositiveExp(exp)
    requires 0 < n < |l|
    ensures Alpha(exp, llk0, l, n).denom
            == Alpha(exp, llk0, l, n - 1).denom * (1.0 - Alpha(exp, llk0, l, n - 1).alpha)
    ensures Numerator(exp, l, n) == 0.0 ==> Alpha(exp, llk0, l, n).alpha == 0.0
    ensures Numerator(exp, l, n) != 0.0 ==>
            Alpha(exp, llk0, l, n).alpha == Ratio(Numerator(exp, l, n), Alpha(exp, llk0, l, n).denom)
    ensures Numerator(exp, l, n) >= 0.0
  {
    hide Alpha, Survival, NextLevel, Numerator, Ratio;
    AlphaStep(exp, llk0, l, n);
    NumeratorIs(exp, l, n);
    var e, s := exp(l[n]), Survival(exp, l[n], ReversedPrefix(l, n), n);
    var prev := Alpha(exp, llk0, l, n - 1);
    NextLevelShape(e, s, prev);
    ProductBounds(e, s);
    assert Alpha(exp, llk0, l, n) == NextLevel(e, s, prev);
    assert Numerator(exp, l, n) == e * s;
    assert e * s != 0.0 ==> NextLevel(e, s, prev).alpha == Ratio(e * s, NextLevel(e, s, prev).denom);
    assert Numerator(exp, l, n) != 0.0 ==> Alpha(exp, llk0, l, n).alpha == Ratio(e * s, Alpha(exp, llk0, l, n).denom);
  }

  lemma NumeratorIs(exp: real -> real, l: seq<real>, n: nat)
    requires PositiveExp(exp)
    requires n < |l|
    ensures Numerator(exp, l, n) == exp(l[n]) * Survival(exp, l[n], ReversedPrefix(l, n), n)
  {
  }

  lemma NextLevelShape(e: real, s: real, prev: Level)
    ensures NextLevel(e, s, prev).denom == prev.denom * (1.0 - prev.alpha)
    ensures e * s == 0.0 ==> NextLevel(e, s, prev).alpha == 0.0
    ensures e * s != 0.0 ==> NextLevel(e, s, prev).alpha == Ratio(e * s, NextLevel(e, s, prev).denom)
  {
  }

  /** Closed form of the denominator: `exp(llk0)` times the probability that
      every earlier level rejected. */
  function Rejections(exp: real -> real, llk0: real, l: seq<real>, n: nat): real
    requires PositiveExp(exp)
    requires n <= |l|
  {
    if n == 0 then 1.0
    else Rejections(exp, llk0, l, n - 1) * (1.0 - Alpha(exp, llk0, l, n - 1).alpha)
  }

  lemma RejectionsStep(exp: real -> real, llk0: real, l: seq<real>, n: nat)
    requires PositiveExp(exp)
    requires 0 < n <= |l|
    ensures Rejections(exp, llk0, l, n)
            == Rejections(exp, llk0, l, n - 1) * (1.0 - Alpha(exp, llk0, l, n - 1).alpha)
  {
    hide Alpha;
  }

  lemma DenominatorBase(exp: real -> real, llk0: real, l: seq<real>)
    requires PositiveExp(exp)
    requires 0 < |l|
    ensures Alpha(exp, llk0, l, 0).denom == exp(llk0) * Rejections(exp, llk0, l, 0)
  {
  }

  lemma Associative(x: real, y: real, z: real)
    ensures x * y * z == x * (y * z)
  {
  }

  lemma {:induction false} DenominatorClosedForm(exp: real -> real, llk0: real, l: seq<real>, n: nat)
    requires PositiveExp(exp)
    requires n < |l|
    ensures Alpha(exp, llk0, l, n).denom == exp(llk0) * Rejections(exp, llk0, l, n)
  {
    hide Alpha, Survival, NextLevel, Rejections;
    if n == 0 {
      DenominatorBase(exp, llk0, l);
    } else {
      DenominatorClosedForm(exp, llk0, l, n - 1);
      LevelShape(exp, llk0, l, n);
      RejectionsStep(exp, llk0, l, n);
      var prev := Alpha(exp, llk0, l, n - 1);
      Associative(exp(llk0), Rejections(exp, llk0, l, n - 1), 1.0 - prev.alpha);
    }
  }

  /** Level `n` reads only `l[0..n]`: candidates of later levels, still
      holding values from an earlier generation, never influence it. */
  lemma {:induction false} AlphaReadsPrefix(exp: real -> real, llk0: real, l: seq<real>, l': seq<real>, n: nat)
    requires PositiveExp(exp)
    requires n < |l| && n < |l'|
    requires l[..n + 1] == l'[..n + 1]
    ensures Alpha(exp, llk0, l, n) == Alpha(exp, llk0, l', n)
  {
    hide Alpha, Survival, NextLevel;
    assert l[n] == l[..n + 1][n] == l'[..n + 1][n] == l'[n];
    if n == 0 {
      AlphaBase(exp, llk0, l);
      AlphaBase(exp, llk0, l');
    } else {
      assert l[..n] == l[..n + 1][..n] == l'[..n + 1][..n] == l'[..n];
      assert ReversedPrefix(l, n) == ReversedPrefix(l', n) by {
        forall j | 0 <= j < n ensures l[j] == l'[j] {
          assert l[j] == l[..n][j];
          assert l'[j] == l'[..n][j];
        }
      }
      AlphaReadsPrefix(exp, llk0, l, l', n - 1);
      AlphaStep(exp, llk0, l, n);
      AlphaStep(exp, llk0, l', n);
    }
  }

  // ---------------------------------------------------------------------
  // The source as written: when the numerator of a level is 0 the function
  // returns before assigning its `denom` out-parameter, and the caller that
  // asked for that denominator multiplies an uninitialised value.
  // ---------------------------------------------------------------------

  /** `None` marks a value that the inputs do not determine: an `alpha`
      computed from an unassigned denominator, or a `denom` never assigned. */
  datatype WrittenLevel = WrittenLevel(alpha: Option<real>, denom: Option<real>)

  /** `NextLevel` as written: the early return leaves `denom` unassigned, and
      an unassigned value read from the level below spoils the result. */
  function NextLevelAsWritten(e: real, s: real, prev: WrittenLevel): (r: WrittenLevel)
    ensures r.alpha.Some? ==> r.alpha.value <= 1.0
    ensures e * s == 0.0 ==> r == WrittenLevel(Some(0.0), None)
  {
    var num := e * s;
    if num == 0.0 then WrittenLevel(Some(0.0), None)
    else if prev.alpha.None? || prev.denom.None? then WrittenLevel(None, None)
    else
      var den := prev.denom.value * (1.0 - prev.alpha.value);
      WrittenLevel(Some(Ratio(num, den)), Some(den))
  }

  function AlphaAsWritten(exp: real -> real, llk0: real, l: seq<real>, n: nat): (r: WrittenLevel)
    requires PositiveExp(exp)
    requires n < |l|
    ensures r.alpha.Some? ==> r.alpha.value <= 1.0
    decreases n, 1
  {
    if n == 0 then
      WrittenLevel(Some(Min1(exp(l[0] - llk0))), Some(exp(llk0)))
    else
      match SurvivalAsWritten(exp, l[n], ReversedPrefix(l, n), n)
      case None => WrittenLevel(None, None)
      case Some(s) => NextLevelAsWritten(exp(l[n]), s, AlphaAsWritten(exp, llk0, l, n - 1))
  }

  function SurvivalAsWritten(exp: real -> real, base: real, rev: seq<real>, k: nat): (r: Option<real>)
    requires PositiveExp(exp)
    requires k <= |rev|
    decreases k, 0
  {
    if k == 0 then Some(1.0)
    else
      match (SurvivalAsWritten(exp, base, rev, k - 1), AlphaAsWritten(exp, base, rev, k - 1).alpha)
      case (Some(s), Some(a)) => Some(s * (1.0 - a))
      case _ => None
  }

  lemma AlphaAsWrittenBase(exp: real -> real, llk0: real, l: seq<real>)
    requires PositiveExp(exp)
    requires 0 < |l|
    ensures AlphaAsWritten(exp, llk0, l, 0) == WrittenLevel(Some(Min1(exp(l[0] - llk0))), Some(exp(llk0)))
  {
  }

  lemma AlphaAsWrittenStep(exp: real -> real, llk0: real, l: seq<real>, n: nat)
    requires PositiveExp(exp)
    requires 0 < n < |l|
    ensures SurvivalAsWritten(exp, l[n], ReversedPrefix(l, n), n).None? ==>
            AlphaAsWritten(exp, llk0, l, n) == WrittenLevel(None, None)
    ensures SurvivalAsWritten(exp, l[n], ReversedPrefix(l, n), n).Some? ==>
            AlphaAsWritten(exp, llk0, l, n)
            == NextLevelAsWritten(exp(l[n]), SurvivalAsWritten(exp, l[n], ReversedPrefix(l, n), n).value,
                                  AlphaAsWritten(exp, llk0, l, n - 1))
  {
  }

  lemma SurvivalAsWrittenStep(exp: real -> real, base: real, rev: seq<real>, k: nat)
    requires PositiveExp(exp)
    requires 0 < k <= |rev|
    ensures SurvivalAsWritten(exp, base, rev, k).Some? <==>
            SurvivalAsWritten(exp, base, rev, k - 1).Some? && AlphaAsWritten(exp, base, rev, k - 1).alpha.Some?
    ensures SurvivalAsWritten(exp, base, rev, k).Some? ==>
            SurvivalAsWritten(exp, base, rev, k).value
            == SurvivalAsWritten(exp, base, rev, k - 1).value * (1.0 - AlphaAsWritten(exp, base, rev, k - 1).alpha.value)
  {
  }

  /** Agrees(w, v): every value `w` determines equals the corrected one. */
  predicate Agrees(w: WrittenLevel, v: Level)
  {
    (w.alpha.Some? ==> w.alpha.value == v.alpha) && (w.denom.Some? ==> w.denom.value == v.denom)
  }

  lemma NextLevelAgrees(e: real, s: real, prevW: WrittenLevel, prev: Level)
    requires Agrees(prevW, prev)
    ensures Agrees(NextLevelAsWritten(e, s, prevW), NextLevel(e, s, prev))
  {
  }

  /** Whenever the source's computation is determined by its inputs, it
      agrees with `Alpha`. */
  lemma {:induction false} AsWrittenAgrees(exp: real -> real, llk0: real, l: seq<real>, n: nat)
    requires PositiveExp(exp)
    requires n < |l|
    ensures Agrees(AlphaAsWritten(exp, llk0, l, n), Alpha(exp, llk0, l, n))
    decreases n, 1
  {
    hide Alpha, Survival, AlphaAsWritten, SurvivalAsWritten, NextLevel, NextLevelAsWritten;
    if n == 0 {
      AlphaBase(exp, llk0, l);
      AlphaAsWrittenBase(exp, llk0, l);
    } else {
      var rev := ReversedPrefix(l, n);
      SurvivalAgrees(exp, l[n], rev, n);
      AsWrittenAgrees(exp, llk0, l, n - 1);
      AlphaStep(exp, llk0, l, n);
      AlphaAsWrittenStep(exp, llk0, l, n);
      if SurvivalAsWritten(exp, l[n], rev, n).Some? {
        NextLevelAgrees(exp(l[n]), Survival(exp, l[n], rev, n),
                        AlphaAsWritten(exp, llk0, l, n - 1), Alpha(exp, llk0, l, n - 1));
      }
    }
  }

  lemma {:induction false} SurvivalAgrees(exp: real -> real, base: real, rev: seq<real>, k: nat)
    requires PositiveExp(exp)
    requires k <= |rev|
    ensures SurvivalAsWritten(exp, base, rev, k).Some? ==>
            SurvivalAsWritten(exp, base, rev, k).value == Survival(exp, base, rev, k)
    decreases k, 0
  {
    hide Alpha, Survival, AlphaAsWritten, SurvivalAsWritten, NextLevel, NextLevelAsWritten;
    if k == 0 {
      SurvivalBase(exp, base, rev);
    } else {
      SurvivalAgrees(exp, base, rev, k - 1);
      AsWrittenAgrees(exp, base, rev, k - 1);
      SurvivalStep(exp, base, rev, k);
      SurvivalAsWrittenStep(exp, base, rev, k);
    }
  }

  /** Three levels with log-likelihoods `0, 0, 1` (any leader): level 1's
      numerator is 0, so it returns without assigning `denom`, and level 2,
      whose numerator is not 0, divides by that unassigned value. The
      corrected `Alpha` keeps the denominator recursion at every level. */
  lemma UnassignedDenominatorRead(exp: real -> real, llk0: real)
    requires PositiveExp(exp)
    requires exp(0.0) == 1.0 && exp(-1.0) < 1.0
    ensures AlphaAsWritten(exp, llk0, [0.0, 0.0, 1.0], 1) == WrittenLevel(Some(0.0), None)
    ensures AlphaAsWritten(exp, llk0, [0.0, 0.0, 1.0], 2).alpha.None?
    ensures Alpha(exp, llk0, [0.0, 0.0, 1.0], 2).denom == Alpha(exp, llk0, [0.0, 0.0, 1.0], 1).denom
  {
    var l := [0.0, 0.0, 1.0];
    // level 1 of the leader's chain: numerator exp(0) * (1 - min(1, exp(0 - 0))) = 0
    assert ReversedPrefix(l, 1) == [0.0];
    assert AlphaAsWritten(exp, 0.0, [0.0], 0).alpha == Some(1.0);
    assert SurvivalAsWritten(exp, 0.0, [0.0], 1) == Some(0.0);
    assert AlphaAsWritten(exp, llk0, l, 1) == WrittenLevel(Some(0.0), None);
    // level 2: the reversed chain 1, 0, 0 rejects with positive probability
    var rev := ReversedPrefix(l, 2);
    assert rev == [0.0, 0.0];
    assert AlphaAsWritten(exp, 1.0, rev, 0).alpha == Some(exp(-1.0));
    assert ReversedPrefix(rev, 1) == [0.0];
    assert AlphaAsWritten(exp, 1.0, rev, 1) == WrittenLevel(Some(0.0), None);
    assert SurvivalAsWritten(exp, 1.0, rev, 2) == Some((1.0 - exp(-1.0)) * (1.0 - 0.0));
    assert exp(1.0) * ((1.0 - exp(-1.0)) * (1.0 - 0.0)) > 0.0;
    // and the corrected level 1 returns 0 with its denominator assigned
    assert Survival(exp, 0.0, [0.0], 1) == 0.0;
  }
}
