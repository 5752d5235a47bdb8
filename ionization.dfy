/**
 * The PPT ionization rate (`compute_ionization`): the multiphoton power law,
 * the general PPT rate with its per-point series, and the series itself
 * (`compute_sum`), a loop that stops at the first term below a relative
 * tolerance or after 200 extra terms.
 *
 * `exp`, `sqrt`, `arcsinh`, the quadrature inside `phi_integral` and
 * `np.abs` of a complex value come from the library record; only the facts
 * in `Facts` are known about them.
 */
module Ionization {
  import opened Numerics
  import opened Grid

  // ---------------------------------------------------------------------
  // The gamma-dependent terms.

  function AsinhGamma(lib: Library, gamma: real): real { lib.asinh(gamma) }

  /** `1 + 0.5/γ²`. */
  function IdxGamma(gamma: real): real
    requires gamma != 0.0
  {
    1.0 + 0.5 / (gamma * gamma)
  }

  /** `2γ/√(1+γ²)`. */
  function BetaGamma(lib: Library, gamma: real): real
    requires Facts(lib)
  {
    2.0 * gamma / lib.sqrt(1.0 + gamma * gamma)
  }

  /** `2·asinh − β`. */
  function AlphaGamma(asinh: real, beta: real): real { 2.0 * asinh - beta }

  /** `(1.5/γ)·(idx·asinh − 1/β)`. */
  function GGamma(gamma: real, asinh: real, idx: real, beta: real): real
    requires gamma != 0.0 && beta != 0.0
  {
    (1.5 / gamma) * (idx * asinh - 1.0 / beta)
  }

  /**
   * For a positive γ the index term exceeds one, β is positive, and the
   * squared half-β factor of the rate is the quotient `γ²/(1+γ²)`.
   */
  lemma GammaTerms(lib: Library, gamma: real)
    requires Facts(lib) && gamma > 0.0
    ensures IdxGamma(gamma) > 1.0
    ensures BetaGamma(lib, gamma) > 0.0
    ensures var h := 0.5 * BetaGamma(lib, gamma); h * h == gamma * gamma / (1.0 + gamma * gamma)
  {
    var q := 1.0 + gamma * gamma;
    var s := lib.sqrt(q);
    assert s > 0.0 && s * s == q;
    var h := 0.5 * BetaGamma(lib, gamma);
    assert h == gamma / s;
    calc {
      h * h;
      (gamma / s) * (gamma / s);
      (gamma * gamma) / (s * s);
      gamma * gamma / q;
    }
  }

  // ---------------------------------------------------------------------
  // phi_integral and the series.

  /** `phi_integral(x)`: zero for `x ≤ 0`, else `exp(−x²)·∫₀ˣ exp(y²) dy`. */
  function Phi(lib: Library, x: real): real
  {
    if x <= 0.0 then 0.0 else lib.exp(-(x * x)) * lib.quad(x)
  }

  lemma PhiNonNegative(lib: Library, x: real)
    requires Facts(lib)
    ensures Phi(lib, x) >= 0.0
    ensures x <= 0.0 ==> Phi(lib, x) == 0.0
  {
    if x > 0.0 {
      assert lib.exp(-(x * x)) > 0.0 && lib.quad(x) >= 0.0;
    }
  }

  /** The series term for index `idx` and threshold `nu`. */
  function Term(lib: Library, alpha: real, beta: real, nu: real, idx: int): real
  {
    lib.exp(-alpha * (idx as real - nu)) * Phi(lib, lib.sqrt(beta * (idx as real - nu)))
  }

  /** The terms of one series, indexed by `idx`. */
  function Terms(lib: Library, alpha: real, beta: real, nu: real): int -> real
  {
    (idx: int) => Term(lib, alpha, beta, nu, idx)
  }

  lemma TermsNonNegative(lib: Library, alpha: real, beta: real, nu: real)
    requires Facts(lib)
    ensures forall idx: int :: Terms(lib, alpha, beta, nu)(idx) >= 0.0
  {
    forall idx: int
      ensures Terms(lib, alpha, beta, nu)(idx) >= 0.0
    {
      PhiNonNegative(lib, lib.sqrt(beta * (idx as real - nu)));
    }
  }

  /** The most indices past the first that the loop evaluates. */
  const MaxIdx: nat := 200

  /** The sum of the first `k` terms, from index `idxMin` on. */
  function PartialSum(term: int -> real, idxMin: int, k: nat): real
  {
    if k == 0 then 0.0 else PartialSum(term, idxMin, k - 1) + term(idxMin + k - 1)
  }

  /** With non-negative terms the partial sums are non-negative and only grow. */
  lemma {:induction false} PartialSumMonotone(term: int -> real, idxMin: int, k: nat, m: nat)
    requires forall idx: int :: term(idx) >= 0.0
    requires k <= m
    ensures 0.0 <= PartialSum(term, idxMin, k) <= PartialSum(term, idxMin, m)
  {
    if k < m {
      PartialSumMonotone(term, idxMin, k, m - 1);
    } else if k > 0 {
      PartialSumMonotone(term, idxMin, k - 1, k - 1);
    }
  }

  /** The loop's stopping test after its `k`-th term: the term is below `tol` times the sum so far. */
  predicate Converged(term: int -> real, idxMin: int, tol: real, k: nat)
    requires k >= 1
  {
    term(idxMin + k - 1) < tol * PartialSum(term, idxMin, k)
  }

  /** How many terms the loop adds when it has already added `k - 1` without converging. */
  function StopCount(term: int -> real, idxMin: int, tol: real, k: nat): (n: nat)
    requires 1 <= k <= MaxIdx + 1
    ensures k <= n <= MaxIdx + 1
    decreases MaxIdx + 1 - k
  {
    if Converged(term, idxMin, tol, k) || k == MaxIdx + 1 then k
    else StopCount(term, idxMin, tol, k + 1)
  }

  /** The value `compute_sum(alpha, beta, idx_ppt, coef_nu, tol)` returns. */
  function Series(lib: Library, alpha: real, beta: real, idxPpt: real, coefNu: real, tol: real): real
  {
    var nu := coefNu * idxPpt;
    var term := Terms(lib, alpha, beta, nu);
    PartialSum(term, Ceil(nu), StopCount(term, Ceil(nu), tol, 1))
  }

  /**
   * The count is the first one whose term passes the test; no earlier term
   * passed it, and the cap of 201 terms is reached only without it.
   */
  lemma {:induction false} StopCountIsFirst(term: int -> real, idxMin: int, tol: real, k: nat)
    requires 1 <= k <= MaxIdx + 1
    ensures var n := StopCount(term, idxMin, tol, k);
      && (forall q :: k <= q < n ==> !Converged(term, idxMin, tol, q))
      && (n < MaxIdx + 1 ==> Converged(term, idxMin, tol, n))
    decreases MaxIdx + 1 - k
  {
    if !Converged(term, idxMin, tol, k) && k < MaxIdx + 1 {
      StopCountIsFirst(term, idxMin, tol, k + 1);
    }
  }

  /**
   * The series adds between 1 and 201 terms, for indices from `⌈ν⌉` on with
   * `ν = coef_nu·idx_ppt`, stops at the first converged one, and is at least
   * its first term and never negative.
   */
  lemma SeriesShape(lib: Library, alpha: real, beta: real, idxPpt: real, coefNu: real, tol: real)
    requires Facts(lib)
    ensures var nu := coefNu * idxPpt;
      var term := Terms(lib, alpha, beta, nu);
      var n := StopCount(term, Ceil(nu), tol, 1);
      && 1 <= n <= MaxIdx + 1
      && Series(lib, alpha, beta, idxPpt, coefNu, tol) == PartialSum(term, Ceil(nu), n)
      && (forall q :: 1 <= q < n ==> !Converged(term, Ceil(nu), tol, q))
      && (n < MaxIdx + 1 ==> Converged(term, Ceil(nu), tol, n))
      && 0.0 <= Term(lib, alpha, beta, nu, Ceil(nu)) <= Series(lib, alpha, beta, idxPpt, coefNu, tol)
  {
    var nu := coefNu * idxPpt;
    var term := Terms(lib, alpha, beta, nu);
    var n := StopCount(term, Ceil(nu), tol, 1);
    StopCountIsFirst(term, Ceil(nu), tol, 1);
    TermsNonNegative(lib, alpha, beta, nu);
    PartialSumMonotone(term, Ceil(nu), 1, n);
    assert PartialSum(term, Ceil(nu), 1) == term(Ceil(nu));
  }

  /** One pass of the loop: the `k`-th term `t` with running sum `s` either stops the count or passes it on. */
  lemma StopCountStep(term: int -> real, idxMin: int, tol: real, k: nat, t: real, s: real)
    requires 1 <= k <= MaxIdx + 1
    requires t == term(idxMin + k - 1) && s == PartialSum(term, idxMin, k)
    ensures t < tol * s ==> StopCount(term, idxMin, tol, k) == k
    ensures !(t < tol * s) && k <= MaxIdx ==> StopCount(term, idxMin, tol, k) == StopCount(term, idxMin, tol, k + 1)
    ensures k == MaxIdx + 1 ==> StopCount(term, idxMin, tol, k) == k
  {
    assert Converged(term, idxMin, tol, k) <==> t < tol * s;
  }

  /**
   * The `while True` loop of `compute_sum`: add terms from `idxMin` on,
   * stop at the first one below `tol` times the sum so far, or once the
   * index has passed `idxMin + 200`.
   */
  method SumUntilConverged(term: int -> real, idxMin: int, tol: real) returns (sumValue: real)
    ensures sumValue == PartialSum(term, idxMin, StopCount(term, idxMin, tol, 1))
  {
    ghost var count := StopCount(term, idxMin, tol, 1);
    sumValue := 0.0;
    var idx := idxMin;
    while true
      invariant idxMin <= idx <= idxMin + MaxIdx
      invariant sumValue == PartialSum(term, idxMin, idx - idxMin)
      invariant count == StopCount(term, idxMin, tol, idx - idxMin + 1)
      decreases idxMin + MaxIdx - idx
    {
      var sumTerm := term(idx);
      sumValue := sumValue + sumTerm;
      StopCountStep(term, idxMin, tol, idx - idxMin + 1, sumTerm, sumValue);
      if sumTerm < tol * sumValue {
        break;
      }
      idx := idx + 1;
      if idx > idxMin + MaxIdx {
        break;
      }
    }
  }

  /** `compute_sum(alpha_s, beta_s, idx_ppt_s, coef_nu, tol)`. */
  method ComputeSum(lib: Library, alphaS: real, betaS: real, idxPptS: real, coefNu: real, tol: real)
    returns (sumValue: real)
    ensures sumValue == Series(lib, alphaS, betaS, idxPptS, coefNu, tol)
  {
    var nuThr := coefNu * idxPptS;
    var idxMin := Ceil(nuThr);
    sumValue := SumUntilConverged(Terms(lib, alphaS, betaS, nuThr), idxMin, tol);
  }

  // ---------------------------------------------------------------------
  // compute_ionization

  /** The constants `compute_ionization` reads. */
  datatype IonParams = IonParams(
    nK: nat, coefF0: real, coefNs: real, coefGa: real, coefNu: real,
    coefIon: real, coefOfi: real, tol: real)

  /** What the call ends in: normal return, or `ValueError` for an unknown model. */
  datatype Outcome = Done | UnknownModel(model: string)

  /** `np.abs(env)`. */
  function Moduli(lib: Library, env: Mat<Complex>): (m: Mat<real>)
    ensures |m| == |env| && forall i :: 0 <= i < |env| ==> |m[i]| == |env[i]|
  {
    seq(|env|, i requires 0 <= i < |env| =>
      seq(|env[i]|, j requires 0 <= j < |env[i]| => lib.abs(env[i][j])))
  }

  /** The multiphoton rate `coef_ofi·|E|^(2·n_k)` at one point. */
  function MpiRate(p: IonParams, m: real): real
  {
    p.coefOfi * Pow(m, 2 * p.nK)
  }

  /**
   * Scaling the field modulus by `k` scales the multiphoton rate by
   * `k^(2·n_k)`; doubling it multiplies the rate by `2^(2·n_k)`.
   */
  lemma MpiRateScaling(p: IonParams, k: real, m: real)
    ensures MpiRate(p, k * m) == Pow(k, 2 * p.nK) * MpiRate(p, m)
  {
    var n := 2 * p.nK;
    PowOfProduct(k, m, n);
    var a, b := Pow(k, n), Pow(m, n);
    assert p.coefOfi * (a * b) == a * (p.coefOfi * b);
  }

  /** The series value stored at a point of field modulus `m`, or the old value below `1e-12`. */
  function PptSumAt(lib: Library, p: IonParams, m: real, previous: real): real
    requires Facts(lib) && p.coefGa > 0.0
  {
    if m < 1e-12 then previous
    else
      var gamma := p.coefGa / m;
      var beta := BetaGamma(lib, gamma);
      Series(lib, AlphaGamma(AsinhGamma(lib, gamma), beta), beta, gamma, p.coefNu, p.tol)
  }

  /**
   * The PPT rate `coef_ion·ns_term·g_term·g_term_2·ion_sum` at a point of
   * modulus `m`; at zero field the γ terms are `inf/inf`, which is `nan`.
   */
  function PptRateAt(lib: Library, p: IonParams, m: real, sum: real): real
    requires Facts(lib) && p.coefGa > 0.0
  {
    if m <= 0.0 then lib.nan
    else
      var gamma := p.coefGa / m;
      var root := lib.sqrt(1.0 + gamma * gamma);
      var asinh := AsinhGamma(lib, gamma);
      var beta := BetaGamma(lib, gamma);
      GammaTerms(lib, gamma);
      var g := GGamma(gamma, asinh, IdxGamma(gamma), beta);
      var nsTerm := lib.rpow(2.0 * p.coefF0 / (m * root), 2.0 * p.coefNs - 1.5);
      var gTerm := lib.exp(-2.0 * p.coefF0 * g / (3.0 * m));
      var gTerm2 := (0.5 * beta) * (0.5 * beta);
      p.coefIon * nsTerm * gTerm * gTerm2 * sum
  }

  function MpiRateFn(p: IonParams, mods: Mat<real>): (nat, nat) -> real
  {
    (i: nat, j: nat) => if i < |mods| && j < |mods[i]| then MpiRate(p, mods[i][j]) else 0.0
  }

  function PptSumFn(lib: Library, p: IonParams, mods: Mat<real>, sum: Mat<real>): (nat, nat) -> real
    requires Facts(lib) && p.coefGa > 0.0
  {
    (i: nat, j: nat) =>
      if i < |mods| && j < |mods[i]| && i < |sum| && j < |sum[i]| then PptSumAt(lib, p, mods[i][j], sum[i][j])
      else 0.0
  }

  function PptRateFn(lib: Library, p: IonParams, mods: Mat<real>, sum: Mat<real>): (nat, nat) -> real
    requires Facts(lib) && p.coefGa > 0.0
  {
    (i: nat, j: nat) =>
      if i < |mods| && j < |mods[i]| && i < |sum| && j < |sum[i]| then PptRateAt(lib, p, mods[i][j], sum[i][j])
      else 0.0
  }

  /** The rates and sums after `compute_ionization`, and how the call ends. */
  function IonizationSpec(lib: Library, p: IonParams, model: string, env: Mat<Complex>,
                          rate: Mat<real>, sum: Mat<real>): (r: (Outcome, Mat<real>, Mat<real>))
    requires Facts(lib) && (model == "ppt" ==> p.coefGa > 0.0)
  {
    var mods := Moduli(lib, env);
    if model == "mpi" then
      (Done, Overlay(rate, |rate|, MpiRateFn(p, mods)), sum)
    else if model == "ppt" then
      var newSum := Overlay(sum, |sum|, PptSumFn(lib, p, mods, sum));
      (Done, Overlay(rate, |rate|, PptRateFn(lib, p, mods, newSum)), newSum)
    else
      (UnknownModel(model), rate, sum)
  }

  /** An unknown model name raises before writing either array. */
  lemma UnknownModelWritesNothing(lib: Library, p: IonParams, model: string, env: Mat<Complex>,
                                  rate: Mat<real>, sum: Mat<real>)
    requires Facts(lib) && model != "mpi" && model != "ppt"
    ensures IonizationSpec(lib, p, model, env, rate, sum) == (UnknownModel(model), rate, sum)
  {
  }

  /** The multiphoton model rewrites every rate from the field modulus and leaves the sums alone. */
  lemma MpiRates(lib: Library, p: IonParams, env: Mat<Complex>, rate: Mat<real>, sum: Mat<real>,
                 nR: nat, nT: nat)
    requires Facts(lib) && IsMat(env, nR, nT) && IsMat(rate, nR, nT)
    ensures var r := IonizationSpec(lib, p, "mpi", env, rate, sum);
      && r.0 == Done && r.2 == sum && IsMat(r.1, nR, nT)
      && forall i, j :: 0 <= i < nR && 0 <= j < nT ==>
           r.1[i][j] == p.coefOfi * Pow(lib.abs(env[i][j]), 2 * p.nK)
  {
  }

  /** Under the PPT model a point whose modulus is below `1e-12` keeps its previous sum. */
  lemma PptLowFieldKeepsSum(lib: Library, p: IonParams, env: Mat<Complex>, rate: Mat<real>, sum: Mat<real>,
                            nR: nat, nT: nat, i: nat, j: nat)
    requires Facts(lib) && p.coefGa > 0.0
    requires IsMat(env, nR, nT) && IsMat(rate, nR, nT) && IsMat(sum, nR, nT) && i < nR && j < nT
    requires lib.abs(env[i][j]) < 1e-12
    ensures IonizationSpec(lib, p, "ppt", env, rate, sum).2[i][j] == sum[i][j]
  {
    var mods := Moduli(lib, env);
    assert mods[i][j] == lib.abs(env[i][j]);
  }

  /**
   * Every other point gets the series whose third argument is γ itself, so
   * its threshold is `coef_nu·γ`; the stored sum is non-negative.
   */
  lemma PptSeriesAtPoint(lib: Library, p: IonParams, env: Mat<Complex>, rate: Mat<real>, sum: Mat<real>,
                         nR: nat, nT: nat, i: nat, j: nat)
    requires Facts(lib) && p.coefGa > 0.0
    requires IsMat(env, nR, nT) && IsMat(rate, nR, nT) && IsMat(sum, nR, nT) && i < nR && j < nT
    requires lib.abs(env[i][j]) >= 1e-12
    ensures var gamma := p.coefGa / lib.abs(env[i][j]);
      var beta := BetaGamma(lib, gamma);
      var s := IonizationSpec(lib, p, "ppt", env, rate, sum).2[i][j];
      && s == Series(lib, AlphaGamma(AsinhGamma(lib, gamma), beta), beta, gamma, p.coefNu, p.tol)
      && s >= 0.0
  {
    var m := lib.abs(env[i][j]);
    var gamma := p.coefGa / m;
    var beta := BetaGamma(lib, gamma);
    var mods := Moduli(lib, env);
    assert mods[i][j] == m;
    SeriesShape(lib, AlphaGamma(AsinhGamma(lib, gamma), beta), beta, gamma, p.coefNu, p.tol);
  }

  /** Under the PPT model every rate is computed from the sum just stored at that point. */
  lemma PptRateUsesNewSum(lib: Library, p: IonParams, env: Mat<Complex>, rate: Mat<real>, sum: Mat<real>,
                          nR: nat, nT: nat, i: nat, j: nat)
    requires Facts(lib) && p.coefGa > 0.0
    requires IsMat(env, nR, nT) && IsMat(rate, nR, nT) && IsMat(sum, nR, nT) && i < nR && j < nT
    ensures var r := IonizationSpec(lib, p, "ppt", env, rate, sum);
      r.0 == Done && r.1[i][j] == PptRateAt(lib, p, lib.abs(env[i][j]), r.2[i][j])
  {
    var mods := Moduli(lib, env);
    assert mods[i][j] == lib.abs(env[i][j]);
  }

  /** One row `i` of the PPT per-point loop. */
  method StorePptRow(lib: Library, p: IonParams, mods: Mat<real>, ionSum: array2<real>, i: nat, nT: nat)
    requires Facts(lib) && p.coefGa > 0.0
    requires i < |mods| && |mods[i]| == nT && i < ionSum.Length0 && ionSum.Length1 == nT
    modifies ionSum
    ensures forall a, b :: 0 <= a < ionSum.Length0 && 0 <= b < nT ==>
      ionSum[a, b] == if a == i then PptSumAt(lib, p, mods[i][b], old(ionSum[i, b])) else old(ionSum[a, b])
  {
    var j := 0;
    while j < nT
      invariant 0 <= j <= nT
      invariant forall a, b :: 0 <= a < ionSum.Length0 && 0 <= b < nT ==>
        ionSum[a, b] == if a == i && b < j then PptSumAt(lib, p, mods[i][b], old(ionSum[i, b])) else old(ionSum[a, b])
    {
      if mods[i][j] < 1e-12 {
        j := j + 1;
        continue;
      }
      var gamma := p.coefGa / mods[i][j];
      var beta := BetaGamma(lib, gamma);
      var alpha := AlphaGamma(AsinhGamma(lib, gamma), beta);
      ionSum[i, j] := ComputeSum(lib, alpha, beta, gamma, p.coefNu, p.tol);
      j := j + 1;
    }
  }

  /** The per-point loop of the PPT branch: every point at or above `1e-12` gets its series. */
  method StorePptSums(lib: Library, p: IonParams, mods: Mat<real>, ionSum: array2<real>, nR: nat, nT: nat)
    requires Facts(lib) && p.coefGa > 0.0
    requires IsMat(mods, nR, nT) && ionSum.Length0 == nR && ionSum.Length1 == nT
    modifies ionSum
    ensures Snapshot(ionSum) == Overlay(old(Snapshot(ionSum)), nR, PptSumFn(lib, p, mods, old(Snapshot(ionSum))))
  {
    ghost var sum0 := Snapshot(ionSum);
    var i := 0;
    while i < nR
      invariant 0 <= i <= nR
      invariant forall a, b :: 0 <= a < nR && 0 <= b < nT ==>
        ionSum[a, b] == if a < i then PptSumAt(lib, p, mods[a][b], sum0[a][b]) else sum0[a][b]
    {
      StorePptRow(lib, p, mods, ionSum, i, nT);
      i := i + 1;
    }
    SameEntries(Snapshot(ionSum), Overlay(sum0, nR, PptSumFn(lib, p, mods, sum0)), nR, nT);
  }

  /** `compute_ionization(env, ion_rate, ion_sum, ...)`. */
  method ComputeIonization(lib: Library, env: array2<Complex>, ionRate: array2<real>, ionSum: array2<real>,
                           nR: nat, nT: nat, p: IonParams, model: string)
    returns (outcome: Outcome)
    requires Facts(lib) && (model == "ppt" ==> p.coefGa > 0.0)
    requires ionRate != ionSum
    requires env.Length0 == nR && env.Length1 == nT
    requires ionRate.Length0 == nR && ionRate.Length1 == nT
    requires ionSum.Length0 == nR && ionSum.Length1 == nT
    modifies ionRate, ionSum
    ensures (outcome, Snapshot(ionRate), Snapshot(ionSum))
         == IonizationSpec(lib, p, model, Snapshot(env), old(Snapshot(ionRate)), old(Snapshot(ionSum)))
  {
    var mods := Moduli(lib, Snapshot(env));
    if model == "mpi" {
      WriteRows(ionRate, nR, MpiRateFn(p, mods));
      outcome := Done;
    } else if model == "ppt" {
      StorePptSums(lib, p, mods, ionSum, nR, nT);
      WriteRows(ionRate, nR, PptRateFn(lib, p, mods, Snapshot(ionSum)));
      outcome := Done;
    } else {
      outcome := UnknownModel(model);
    }
  }
}
