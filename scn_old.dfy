/**
 * The older spectral Crank-Nicolson / Adams-Bashforth script
 * `ffdmk_2d1_scn_old.py`: diffraction and dispersion are solved frequency
 * by frequency as in `ffd_2d1_scn.py`, and the Kerr and multiphoton
 * absorption terms enter the right-hand side with the weights 1.5 and
 * -0.5. The loop also stores snapshots under a `DIST_INDEX` counter and the
 * on-axis and peak-time lines.
 *
 * The model follows the script's buffers as they are bound: from the
 * second iteration on `next_w_array` is the same array as
 * `current_w_array`, so `fft_algorithm` transforms it twice, and the
 * "previous" nonlinear term the solve reads is the array the dictionary
 * captured before the loop, which nothing ever writes.
 */
module ScnOld {
  import opened Numerics
  import opened Grid
  import opened Tridiagonal
  import Water
  import FfdScn

  // ---------------------------------------------------------------------
  // crank_nicolson_diags

  /**
   * `crank_nicolson_diags` of this script builds the same diagonals as the
   * one of `ffd_2d1_scn.py` (`FfdScn.CrankNicolsonDiags`): a main diagonal
   * of ones, the interior stencil `-c(1 - 0.5/i)` / `-c(1 + 0.5/i)`, a
   * trailing zero below, the doubled axis entry `-2c` above, whatever the
   * position argument.
   */
  lemma DiagsLayout(n: nat, lr: string, c: Complex)
    requires n >= 2
    ensures var t := FfdScn.CrankNicolsonDiags(n, lr, c);
      && |t.main| == n && |t.lower| == n - 1 && |t.upper| == n - 1
      && (forall k :: 0 <= k < n ==> t.main[k] == One)
      && t.lower[n - 2] == Zero && t.upper[0] == Scale(-2.0, c)
      && (forall i :: 1 <= i <= n - 2 ==> t.lower[i - 1] == CnLower(c, i) && t.upper[i] == CnUpper(c, i))
      && t == FfdScn.CrankNicolsonDiags(n, "LEFT", c)
  {
    FfdScn.DiagsAreStencil(n, lr, c);
    FfdScn.DiagsIgnorePosition(n, lr, "LEFT", c);
    var t := FfdScn.CrankNicolsonDiags(n, lr, c);
    forall i | 1 <= i <= n - 2
      ensures t.lower[i - 1] == CnLower(c, i) && t.upper[i] == CnUpper(c, i)
    {
      assert t.lower == CnLowerDiag(n, c);
      assert t.upper == CnUpperDiag(n, c, Scale(-2.0, c));
    }
  }

  // ---------------------------------------------------------------------
  // The snapshot schedule of the loop

  /**
   * The storing condition of iteration `k` with counter `DIST_INDEX =
   * index`: `k % (N_STEPS // DIST_LIMIT) == 0` or `k == N_STEPS - 1`, and
   * `DIST_INDEX <= DIST_LIMIT`.
   */
  predicate StoresAt(nSteps: nat, distLimit: nat, k: nat, index: nat)
    requires 1 <= distLimit <= nSteps
  {
    StrideIsPositive(nSteps, distLimit);
    (k % (nSteps / distLimit) == 0 || k == nSteps - 1) && index <= distLimit
  }

  /** `N_STEPS // DIST_LIMIT` is at least one when there are at least as many steps as snapshots. */
  lemma StrideIsPositive(nSteps: nat, distLimit: nat)
    requires 1 <= distLimit <= nSteps
    ensures nSteps / distLimit >= 1
  {
    assert nSteps == distLimit * (nSteps / distLimit) + nSteps % distLimit;
  }

  /**
   * The steps the first `k` iterations store, in slot order: iteration `j`
   * writes slot `DIST_INDEX` and records `k_indices[DIST_INDEX] = j` when
   * `StoresAt` holds, and `DIST_INDEX` is the number of earlier stores.
   */
  function Recorded(nSteps: nat, distLimit: nat, k: nat): (r: seq<nat>)
    requires 1 <= distLimit <= nSteps
  {
    if k == 0 then []
    else
      var r := Recorded(nSteps, distLimit, k - 1);
      if StoresAt(nSteps, distLimit, k - 1, |r|) then r + [k - 1] else r
  }

  /**
   * The counter never passes `DIST_LIMIT + 1`, so every slot written lies
   * within the `DIST_LIMIT + 1` slots of `dist_envelope`; the recorded
   * steps are increasing, earlier than `k`, and each satisfies the
   * storing condition.
   */
  lemma {:induction false} RecordedInBounds(nSteps: nat, distLimit: nat, k: nat)
    requires 1 <= distLimit <= nSteps
    ensures var r := Recorded(nSteps, distLimit, k);
      && |r| <= distLimit + 1 && |r| <= k
      && (forall i :: 0 <= i < |r| ==> r[i] < k && StoresAt(nSteps, distLimit, r[i], i))
      && (forall i, j :: 0 <= i < j < |r| ==> r[i] < r[j])
  {
    if k > 0 {
      RecordedInBounds(nSteps, distLimit, k - 1);
    }
  }

  /** `x = d·q + m` with `0 <= m < q` fixes the quotient and the remainder. */
  lemma DivOfMultiple(q: nat, d: nat, m: nat)
    requires q >= 1
    ensures m < q ==> (d * q + m) / q == d && (d * q + m) % q == m
  {
    if m < q {
      var x := d * q + m;
      var e, r := x / q, x % q;
      assert x == e * q + r && 0 <= r < q;
      if e < d {
        MulLe(e + 1, d, q);
      } else if e > d {
        MulLe(d + 1, e, q);
      }
    }
  }

  /** `(a·b) / a == b`: the stride of `N_STEPS = DIST_LIMIT·q` is `q`. */
  lemma DivOfProduct(a: nat, b: nat)
    requires a >= 1
    ensures (a * b) / a == b
  {
    DivOfMultiple(a, b, 0);
    assert b * a + 0 == a * b;
  }

  lemma MulLe(a: nat, b: nat, q: nat)
    requires a <= b
    ensures a * q <= b * q
  {
  }

  lemma LessOfMulLess(a: nat, b: nat, q: nat)
    requires a * q < b * q
    ensures a < b
  {
    if a >= b {
      MulLe(b, a, q);
    }
  }

  /** The steps `0, q, 2q, ..., (c-1)q`. */
  function Multiples(q: nat, c: nat): (r: seq<nat>)
    ensures |r| == c && forall i :: 0 <= i < c ==> r[i] == i * q
  {
    seq(c, i requires 0 <= i < c => i * q)
  }

  /**
   * Within the run, iteration `k = c·q + m - 1` (with `1 <= m <= q`, before
   * the last one) stores exactly when it is the first of its block of `q`
   * steps and the counter has room.
   */
  lemma StoreDecision(distLimit: nat, q: nat, c: nat, m: nat, index: nat)
    requires distLimit >= 1 && q >= 2 && 1 <= m <= q
    requires c * q + m < distLimit * q
    ensures StoresAt(distLimit * q, distLimit, c * q + m - 1, index) <==> m == 1 && index <= distLimit
  {
    var n := distLimit * q;
    var k := c * q + m - 1;
    MulLe(1, distLimit, q);
    DivOfProduct(distLimit, q);
    DivOfMultiple(q, c, m - 1);
    assert k % q == m - 1;
    assert k < n - 1;
  }

  /**
   * When `N_STEPS = DIST_LIMIT·q` with a stride `q >= 2` (1000 = 5·200 in
   * the script), the first `c·q + m` iterations (`1 <= m <= q`, not
   * reaching the last) store exactly the steps `0, q, ..., c·q`.
   */
  lemma {:induction false} RecordedWithinBlocks(distLimit: nat, q: nat, c: nat, m: nat)
    requires distLimit >= 1 && q >= 2 && 1 <= m <= q
    requires c * q + m < distLimit * q
    ensures Recorded(distLimit * q, distLimit, c * q + m) == Multiples(q, c + 1)
    decreases c, m
  {
    BlockArith(distLimit, q, c, m);
    var k := c * q + m - 1;
    var before := Recorded(distLimit * q, distLimit, k);
    if m == 1 {
      if c == 0 {
        assert before == [];
      } else {
        RecordedWithinBlocks(distLimit, q, c - 1, q);
      }
      assert before == Multiples(q, c);
      StoreDecision(distLimit, q, c, m, |before|);
      MultiplesSnoc(q, c);
    } else {
      RecordedWithinBlocks(distLimit, q, c, m - 1);
      StoreDecision(distLimit, q, c, m, |before|);
    }
  }

  /** The products `RecordedWithinBlocks` steps through, kept apart from its induction. */
  lemma BlockArith(distLimit: nat, q: nat, c: nat, m: nat)
    requires distLimit >= 1 && q >= 2 && 1 <= m <= q
    requires c * q + m < distLimit * q
    ensures c < distLimit && distLimit <= distLimit * q
    ensures c > 0 ==> (c - 1) * q + q == c * q
    ensures c == 0 ==> c * q == 0
  {
    MulLe(1, distLimit, q);
    LessOfMulLess(c, distLimit, q);
  }

  /** One more block: `0, q, ..., (c-1)q` followed by `c·q`. */
  lemma MultiplesSnoc(q: nat, c: nat)
    ensures Multiples(q, c) + [c * q] == Multiples(q, c + 1)
  {
    var a, b := Multiples(q, c) + [c * q], Multiples(q, c + 1);
    assert forall i :: 0 <= i < c + 1 ==> a[i] == b[i];
  }

  /**
   * With `N_STEPS = DIST_LIMIT·q` and a stride `q >= 2`, the run stores
   * `DIST_LIMIT + 1` snapshots, at steps `0, q, ..., (DIST_LIMIT-1)·q` and
   * at the last step `N_STEPS - 1`: every slot of `dist_envelope` is written
   * exactly once.
   */
  lemma ScheduleOfRun(distLimit: nat, q: nat)
    requires distLimit >= 1 && q >= 2
    ensures Recorded(distLimit * q, distLimit, distLimit * q) == Multiples(q, distLimit) + [distLimit * q - 1]
  {
    var n := distLimit * q;
    LastBlockArith(distLimit, q);
    RecordedWithinBlocks(distLimit, q, distLimit - 1, q - 1);
    var before := Recorded(n, distLimit, n - 1);
    assert before == Multiples(q, distLimit);
    assert StoresAt(n, distLimit, n - 1, |before|);
  }

  /** The last iteration `N_STEPS - 1` is step `q - 1` of block `DIST_LIMIT - 1`. */
  lemma LastBlockArith(distLimit: nat, q: nat)
    requires distLimit >= 1 && q >= 2
    ensures 1 <= distLimit <= distLimit * q
    ensures (distLimit - 1) * q + (q - 1) == distLimit * q - 1
  {
    MulLe(1, distLimit, q);
    assert (distLimit - 1) * q + q == distLimit * q;
  }

  // ---------------------------------------------------------------------
  // Parameters

  /**
   * The grid of `ffd_2d1_scn.py` (nodes, steps, on-axis node, `DELTA_R`,
   * `DELTA_T`, frequencies) plus what this script adds: the peak-time node,
   * `DIST_LIMIT`, the photon number of multiphoton absorption, and the
   * coefficients `KERR_COEF` (complex) and `MPA_COEF` (real).
   */
  datatype Params = Params(grid: FfdScn.Params, peakNode: nat, distLimit: nat,
                           nPhotons: nat, kerr: Complex, mpa: real)

  predicate ParamsOk(p: Params)
  {
    && FfdScn.ParamsOk(p.grid) && p.peakNode < p.grid.nT
    && 1 <= p.distLimit <= p.grid.nSteps && p.nPhotons >= 1
  }

  /** `MPA_EXP = 2·N_PHOTONS - 2`. */
  function MpaExp(p: Params): (e: nat)
    requires p.nPhotons >= 1
    ensures e + 2 == 2 * p.nPhotons
  {
    2 * p.nPhotons - 2
  }

  // ---------------------------------------------------------------------
  // nonlinear_terms and adam_bashforth_step

  /**
   * `b_array` after `nonlinear_terms(e_c, b)`: channel 0 holds the
   * envelope, channel 1 `|e|²` and channel 2 `|e|^MPA_EXP`, each modulus
   * taken by `np.abs`.
   */
  function NonlinearChannels(lib: Library, p: Params, e: Mat<Complex>, rows: nat, cols: nat): (b: seq<Mat<Complex>>)
    requires p.nPhotons >= 1 && IsMat(e, rows, cols)
    ensures |b| == 3 && b[0] == e && IsMat(b[1], rows, cols) && IsMat(b[2], rows, cols)
    ensures forall i, j :: 0 <= i < rows && 0 <= j < cols ==>
      b[1][i][j] == Of(Pow(lib.abs(e[i][j]), 2)) && b[2][i][j] == Of(Pow(lib.abs(e[i][j]), MpaExp(p)))
  {
    [e,
     seq(rows, i requires 0 <= i < rows => seq(cols, j requires 0 <= j < cols => Of(Pow(lib.abs(e[i][j]), 2)))),
     seq(rows, i requires 0 <= i < rows => seq(cols, j requires 0 <= j < cols => Of(Pow(lib.abs(e[i][j]), MpaExp(p)))))]
  }

  /** One entry of `adam_bashforth_step`: `(KERR_COEF·b1 + MPA_COEF·b2)·b0`. */
  function AbTerm(p: Params, b0: Complex, b1: Complex, b2: Complex): Complex
  {
    Mul(Add(Mul(p.kerr, b1), Scale(p.mpa, b2)), b0)
  }

  /** `current_w_array` after `adam_bashforth_step(b, w_c)`. */
  function AbTerms(p: Params, b: seq<Mat<Complex>>, rows: nat, cols: nat): (w: Mat<Complex>)
    requires |b| == 3 && IsMat(b[0], rows, cols) && IsMat(b[1], rows, cols) && IsMat(b[2], rows, cols)
    ensures IsMat(w, rows, cols)
    ensures forall i, j :: 0 <= i < rows && 0 <= j < cols ==> w[i][j] == AbTerm(p, b[0][i][j], b[1][i][j], b[2][i][j])
  {
    seq(rows, i requires 0 <= i < rows => seq(cols, j requires 0 <= j < cols =>
      AbTerm(p, b[0][i][j], b[1][i][j], b[2][i][j])))
  }

  /** An even power is a power of the square. */
  lemma {:induction false} PowEven(a: real, m: nat)
    ensures Pow(a, 2 * m) == Pow(a * a, m)
  {
    if m > 0 {
      PowEven(a, m - 1);
      assert Pow(a, 2 * m) == a * (a * Pow(a, 2 * (m - 1)));
    }
  }

  /** An even power of `a` is a power of any `s` that equals `a²`. */
  lemma PowOfSquare(a: real, s: real, m: nat)
    requires a * a == s
    ensures Pow(a, 2 * m) == Pow(s, m)
  {
    PowEven(a, m);
  }

  /**
   * The Kerr and multiphoton absorption response of an envelope value:
   * `(KERR_COEF·|e|² + MPA_COEF·(|e|²)^(K-1))·e`, with `K` the photon number.
   */
  function KerrMpaResponse(p: Params, e: Complex): Complex
    requires p.nPhotons >= 1
  {
    Mul(Add(Scale(AbsSq(e), p.kerr), Of(p.mpa * Pow(AbsSq(e), p.nPhotons - 1))), e)
  }

  /**
   * When `np.abs` is the exact modulus, the term the script adds to the
   * right-hand side from the channels of `nonlinear_terms` is the Kerr and
   * multiphoton absorption response of the envelope.
   */
  lemma AbTermIsKerrAndMpa(lib: Library, p: Params, e: Complex)
    requires p.nPhotons >= 1 && lib.abs(e) * lib.abs(e) == AbsSq(e)
    ensures AbTerm(p, e, Of(Pow(lib.abs(e), 2)), Of(Pow(lib.abs(e), MpaExp(p)))) == KerrMpaResponse(p, e)
  {
    var a := lib.abs(e);
    assert Pow(a, 1) == a;
    assert Pow(a, 2) == AbsSq(e);
    var m := p.nPhotons - 1;
    PowOfSquare(a, AbsSq(e), m);
    assert MpaExp(p) == 2 * m;
    KerrMpaFactor(p, e);
  }

  /** The `adam_bashforth_step` entry on the channels `|e|²` and `(|e|²)^(K-1)` is the response. */
  lemma KerrMpaFactor(p: Params, e: Complex)
    requires p.nPhotons >= 1
    ensures AbTerm(p, e, Of(AbsSq(e)), Of(Pow(AbsSq(e), p.nPhotons - 1))) == KerrMpaResponse(p, e)
  {
    var x, y := AbsSq(e), Pow(AbsSq(e), p.nPhotons - 1);
    RealFactors(p.kerr, x, p.mpa, y);
  }

  /** A complex number times a real one, and a real multiple of a real one. */
  lemma RealFactors(k: Complex, x: real, m: real, y: real)
    ensures Mul(k, Of(x)) == Scale(x, k) && Scale(m, Of(y)) == Of(m * y)
  {
  }

  // ---------------------------------------------------------------------
  // crank_nicolson_step with the nonlinear terms

  /** One entry of `c + 1.5·w_c - 0.5·w_n`. */
  function AbEntry(x: Complex, u: Complex, v: Complex): Complex
  {
    Sub(Add(x, Scale(1.5, u)), Scale(0.5, v))
  }

  /** `d = c + 1.5·w_c[:, l] - 0.5·w_n[:, l]`, entry by entry. */
  function AbCombination(c: seq<Complex>, wc: seq<Complex>, wn: seq<Complex>): (d: seq<Complex>)
    requires |wc| == |c| && |wn| == |c|
    ensures |d| == |c|
    ensures forall i :: 0 <= i < |c| ==> d[i] == AbEntry(c[i], wc[i], wn[i])
  {
    seq(|c|, i requires 0 <= i < |c| => AbEntry(c[i], wc[i], wn[i]))
  }

  /** With both nonlinear terms zero the combination is the linear right-hand side. */
  lemma ZeroTermsCombination(c: seq<Complex>, wc: seq<Complex>, wn: seq<Complex>)
    requires |wc| == |c| && |wn| == |c|
    requires forall i :: 0 <= i < |c| ==> wc[i] == Zero && wn[i] == Zero
    ensures AbCombination(c, wc, wn) == c
  {
    var d := AbCombination(c, wc, wn);
    forall i | 0 <= i < |c|
      ensures d[i] == c[i]
    {
      ZeroTermsEntry(c[i], wc[i], wn[i]);
    }
  }

  lemma ZeroTermsEntry(x: Complex, u: Complex, v: Complex)
    requires u == Zero && v == Zero
    ensures AbEntry(x, u, v) == x
  {
    assert Scale(1.5, u) == Zero;
    assert Scale(0.5, v) == Zero;
  }

  /**
   * Column `l` of `f_array` after the step: the solve of the left operator
   * of frequency `l` against `R_l·fe[:, l] + 1.5·w_c[:, l] - 0.5·w_n[:, l]`.
   */
  function AbColumn(tr: Water.Transforms, lt: Tridiag, rt: Tridiag, le: seq<Complex>, re: seq<Complex>,
                    fe: Mat<Complex>, w: Mat<Complex>, wn: Mat<Complex>, rows: nat, cols: nat, l: nat): (x: seq<Complex>)
    requires Water.SolveKeepsLength(tr)
    requires WellFormed(lt) && WellFormed(rt) && Size(lt) == rows && Size(rt) == rows
    requires IsMat(fe, rows, cols) && IsMat(w, rows, cols) && IsMat(wn, rows, cols)
    requires cols <= |le| && cols <= |re| && l < cols
    ensures |x| == rows
  {
    tr.solve(FfdScn.SetMain(lt, le[l], One), AbRhs(rt, re, fe, w, wn, rows, cols, l))
  }

  /** The right-hand side of column `l`. */
  function AbRhs(rt: Tridiag, re: seq<Complex>, fe: Mat<Complex>, w: Mat<Complex>, wn: Mat<Complex>,
                 rows: nat, cols: nat, l: nat): (d: seq<Complex>)
    requires WellFormed(rt) && Size(rt) == rows
    requires IsMat(fe, rows, cols) && IsMat(w, rows, cols) && IsMat(wn, rows, cols)
    requires cols <= |re| && l < cols
    ensures |d| == rows
  {
    AbCombination(MatVec(FfdScn.SetMain(rt, re[l], Zero), Col(fe, l)), Col(w, l), Col(wn, l))
  }

  /** `f_array` after `crank_nicolson_step`: every column solved. */
  function AbColumns(tr: Water.Transforms, lt: Tridiag, rt: Tridiag, le: seq<Complex>, re: seq<Complex>,
                     fe: Mat<Complex>, w: Mat<Complex>, wn: Mat<Complex>, rows: nat, cols: nat): (x: Mat<Complex>)
    requires Water.SolveKeepsLength(tr)
    requires WellFormed(lt) && WellFormed(rt) && Size(lt) == rows && Size(rt) == rows
    requires IsMat(fe, rows, cols) && IsMat(w, rows, cols) && IsMat(wn, rows, cols)
    requires cols <= |le| && cols <= |re|
    ensures IsMat(x, rows, cols)
    ensures forall l :: 0 <= l < cols ==> Col(x, l) == AbColumn(tr, lt, rt, le, re, fe, w, wn, rows, cols, l)
  {
    var x := seq(rows, i requires 0 <= i < rows => seq(cols, l requires 0 <= l < cols =>
      AbColumn(tr, lt, rt, le, re, fe, w, wn, rows, cols, l)[i]));
    assert forall l :: 0 <= l < cols ==> Col(x, l) == AbColumn(tr, lt, rt, le, re, fe, w, wn, rows, cols, l);
    x
  }

  /**
   * With an exact solve, column `l` of the step (`AbColumns` hands it back
   * as `AbColumn`) satisfies `L_l·x = R_l·fe[:, l] + 1.5·w_c[:, l] - 0.5·w_n[:, l]`.
   */
  lemma AbColumnSolves(tr: Water.Transforms, lt: Tridiag, rt: Tridiag, le: seq<Complex>, re: seq<Complex>,
                       fe: Mat<Complex>, w: Mat<Complex>, wn: Mat<Complex>, rows: nat, cols: nat, l: nat)
    requires Water.SolveKeepsLength(tr)
    requires WellFormed(lt) && WellFormed(rt) && Size(lt) == rows && Size(rt) == rows
    requires IsMat(fe, rows, cols) && IsMat(w, rows, cols) && IsMat(wn, rows, cols)
    requires cols <= |le| && cols <= |re| && l < cols
    requires Solves(tr.solve, FfdScn.SetMain(lt, le[l], One))
    ensures MatVec(FfdScn.SetMain(lt, le[l], One), AbColumn(tr, lt, rt, le, re, fe, w, wn, rows, cols, l))
         == AbRhs(rt, re, fe, w, wn, rows, cols, l)
  {
  }

  /**
   * With both nonlinear buffers zero, the step is the linear spectral step
   * of `ffd_2d1_scn.py`.
   */
  lemma ZeroTermsAreLinearStep(tr: Water.Transforms, lt: Tridiag, rt: Tridiag, le: seq<Complex>, re: seq<Complex>,
                               fe: Mat<Complex>, w: Mat<Complex>, wn: Mat<Complex>, rows: nat, cols: nat)
    requires Water.SolveKeepsLength(tr)
    requires WellFormed(lt) && WellFormed(rt) && Size(lt) == rows && Size(rt) == rows
    requires IsMat(fe, rows, cols) && IsMat(w, rows, cols) && IsMat(wn, rows, cols)
    requires cols <= |le| && cols <= |re|
    requires forall i, j :: 0 <= i < rows && 0 <= j < cols ==> w[i][j] == Zero && wn[i][j] == Zero
    ensures AbColumns(tr, lt, rt, le, re, fe, w, wn, rows, cols)
         == FfdScn.FrequencyColumns(tr, lt, rt, le, re, fe, rows, cols)
  {
    var x := AbColumns(tr, lt, rt, le, re, fe, w, wn, rows, cols);
    var y := FfdScn.FrequencyColumns(tr, lt, rt, le, re, fe, rows, cols);
    forall i, l | 0 <= i < rows && 0 <= l < cols
      ensures x[i][l] == y[i][l]
    {
      ZeroTermsCombination(MatVec(FfdScn.SetMain(rt, re[l], Zero), Col(fe, l)), Col(w, l), Col(wn, l));
      assert Col(x, l) == Col(y, l);
    }
    SameEntries(x, y, rows, cols);
  }

  // ---------------------------------------------------------------------
  // The propagation loop, stage by stage

  /**
   * The values held by the script's buffers: the two envelope buffers it
   * swaps, `fourier_envelope`, `current_w_array`, the `w_n` buffer the
   * solve reads, `f_array`, the three channels of `b_array`, the slots of
   * `dist_envelope`, `axis_envelope`, `peak_envelope`, `k_indices`, the
   * counter `DIST_INDEX` and the two sparse operators.
   */
  datatype OldState = OldState(
    current: Mat<Complex>, next: Mat<Complex>, fourier: Mat<Complex>,
    w: Mat<Complex>, wN: Mat<Complex>, f: Mat<Complex>, b: seq<Mat<Complex>>,
    dist: seq<Mat<Complex>>, axis: Mat<Complex>, peak: Mat<Complex>,
    kIndices: seq<int>, distIndex: nat, left: Tridiag, right: Tridiag)

  predicate Shaped(s: OldState, p: Params)
  {
    var g := p.grid;
    && IsMat(s.current, g.nR, g.nT) && IsMat(s.next, g.nR, g.nT) && IsMat(s.fourier, g.nR, g.nT)
    && IsMat(s.w, g.nR, g.nT) && IsMat(s.wN, g.nR, g.nT) && IsMat(s.f, g.nR, g.nT)
    && |s.b| == 3 && IsMat(s.b[0], g.nR, g.nT) && IsMat(s.b[1], g.nR, g.nT) && IsMat(s.b[2], g.nR, g.nT)
    && |s.dist| == p.distLimit + 1 && (forall i :: 0 <= i < |s.dist| ==> IsMat(s.dist[i], g.nR, g.nT))
    && IsMat(s.axis, g.nSteps + 1, g.nT) && IsMat(s.peak, g.nR, g.nSteps + 1)
    && |s.kIndices| == p.distLimit + 1 && s.distIndex <= p.distLimit + 1
    && WellFormed(s.left) && Size(s.left) == g.nR && WellFormed(s.right) && Size(s.right) == g.nR
  }

  /** `nonlinear_terms` then `adam_bashforth_step` on the current envelope. */
  function NonlinearStage(s: OldState, p: Params, lib: Library): (r: OldState)
    requires ParamsOk(p) && Shaped(s, p)
    ensures Shaped(r, p)
  {
    var b := NonlinearChannels(lib, p, s.current, p.grid.nR, p.grid.nT);
    s.(b := b, w := AbTerms(p, b, p.grid.nR, p.grid.nT))
  }

  /** At `k == 0` only: `axis_envelope[1] = current_envelope[AXIS_NODE]`, the envelope before the step. */
  function FirstAxisStage(s: OldState, p: Params, k: nat): (r: OldState)
    requires ParamsOk(p) && Shaped(s, p) && k < p.grid.nSteps
    ensures Shaped(r, p)
  {
    if k == 0 then s.(axis := s.axis[1 := s.current[p.grid.axisNode]]) else s
  }

  /**
   * `fft_algorithm`: the Fourier envelope, and `current_w_array` transformed
   * once, or twice when `next_w_array` is the same array (`aliased`).
   */
  function TransformStage(s: OldState, p: Params, tr: Water.Transforms, aliased: bool): (r: OldState)
    requires ParamsOk(p) && Shaped(s, p)
    ensures Shaped(r, p)
  {
    var once := Water.Transformed(tr.fft, s.w);
    s.(fourier := Water.Transformed(tr.fft, s.current),
       w := if aliased then Water.Transformed(tr.fft, once) else once)
  }

  /** `crank_nicolson_step`: every frequency solved into `f_array`; the operators keep the last rewrite. */
  function SolveStage(s: OldState, p: Params, tr: Water.Transforms): (r: OldState)
    requires ParamsOk(p) && Shaped(s, p) && Water.SolveKeepsLength(tr)
    ensures Shaped(r, p)
  {
    var g := p.grid;
    s.(f := AbColumns(tr, s.left, s.right, FfdScn.LeftElements(g), FfdScn.RightElements(g),
                      s.fourier, s.w, s.wN, g.nR, g.nT),
       left := FfdScn.Retuned(s.left, FfdScn.LeftElements(g), One, g.nT),
       right := FfdScn.Retuned(s.right, FfdScn.RightElements(g), Zero, g.nT))
  }

  /** `ifft_algorithm(f_array, next_envelope)` and the swap of the two envelope buffers. */
  function BackAndSwapStage(s: OldState, p: Params, tr: Water.Transforms): (r: OldState)
    requires ParamsOk(p) && Shaped(s, p)
    ensures Shaped(r, p)
  {
    s.(current := Water.Transformed(tr.ifft, s.f), next := s.current)
  }

  /** The snapshot store: slot `DIST_INDEX` and `k_indices[DIST_INDEX]` when `StoresAt` holds. */
  function StoreStage(s: OldState, p: Params, k: nat): (r: OldState)
    requires ParamsOk(p) && Shaped(s, p)
    ensures Shaped(r, p)
  {
    if StoresAt(p.grid.nSteps, p.distLimit, k, s.distIndex) then
      s.(dist := s.dist[s.distIndex := s.current], kIndices := s.kIndices[s.distIndex := k],
         distIndex := s.distIndex + 1)
    else s
  }

  /** For `k > 0`: row `k + 1` of `axis_envelope` and column `k + 1` of `peak_envelope`. */
  function LinesStage(s: OldState, p: Params, k: nat): (r: OldState)
    requires ParamsOk(p) && Shaped(s, p) && k < p.grid.nSteps
    ensures Shaped(r, p)
  {
    if k > 0 then
      s.(axis := s.axis[k + 1 := s.current[p.grid.axisNode]],
         peak := WithColumn(s.peak, k + 1, Col(s.current, p.peakNode)))
    else s
  }

  /** Iteration `k` of the loop; from `k = 1` on `next_w_array` is `current_w_array`. */
  function Iteration(s: OldState, p: Params, lib: Library, tr: Water.Transforms, k: nat): (r: OldState)
    requires ParamsOk(p) && Shaped(s, p) && Water.SolveKeepsLength(tr) && k < p.grid.nSteps
    ensures Shaped(r, p)
  {
    Finished(Advanced(Prepared(s, p, lib, k), p, tr, k), p, tr, k)
  }

  /** The stages of iteration `k` before the transforms. */
  function Prepared(s: OldState, p: Params, lib: Library, k: nat): (r: OldState)
    requires ParamsOk(p) && Shaped(s, p) && k < p.grid.nSteps
    ensures Shaped(r, p)
  {
    FirstAxisStage(NonlinearStage(s, p, lib), p, k)
  }

  /** The transforms and the solve of iteration `k`. */
  function Advanced(s: OldState, p: Params, tr: Water.Transforms, k: nat): (r: OldState)
    requires ParamsOk(p) && Shaped(s, p) && Water.SolveKeepsLength(tr)
    ensures Shaped(r, p)
  {
    SolveStage(TransformStage(s, p, tr, k > 0), p, tr)
  }

  /** The stages of iteration `k` after the solve. */
  function Finished(s: OldState, p: Params, tr: Water.Transforms, k: nat): (r: OldState)
    requires ParamsOk(p) && Shaped(s, p) && k < p.grid.nSteps
    ensures Shaped(r, p)
  {
    LinesStage(StoreStage(BackAndSwapStage(s, p, tr), p, k), p, k)
  }

  /** The nonlinear term the solve of iteration `k` reads in place of `current_w_array`. */
  function SolvedTerm(s: OldState, p: Params, lib: Library, tr: Water.Transforms, k: nat): (w: Mat<Complex>)
    requires ParamsOk(p) && Shaped(s, p)
    ensures IsMat(w, p.grid.nR, p.grid.nT)
  {
    var once := Water.Transformed(tr.fft, AbTerms(p, NonlinearChannels(lib, p, s.current, p.grid.nR, p.grid.nT), p.grid.nR, p.grid.nT));
    if k > 0 then Water.Transformed(tr.fft, once) else once
  }

  /** The line records of iteration `k`. */
  lemma IterationLines(s: OldState, p: Params, lib: Library, tr: Water.Transforms, k: nat)
    requires ParamsOk(p) && Shaped(s, p) && Water.SolveKeepsLength(tr) && k < p.grid.nSteps
    ensures var r, g := Iteration(s, p, lib, tr, k), p.grid;
      && (k == 0 ==> r.axis == s.axis[1 := s.current[g.axisNode]] && r.peak == s.peak)
      && (k > 0 ==> r.axis == s.axis[k + 1 := r.current[g.axisNode]]
                    && r.peak == WithColumn(s.peak, k + 1, Col(r.current, p.peakNode)))
  {
  }

  /** The snapshot store of iteration `k`. */
  lemma IterationStores(s: OldState, p: Params, lib: Library, tr: Water.Transforms, k: nat)
    requires ParamsOk(p) && Shaped(s, p) && Water.SolveKeepsLength(tr) && k < p.grid.nSteps
    ensures var r, g := Iteration(s, p, lib, tr, k), p.grid;
      if StoresAt(g.nSteps, p.distLimit, k, s.distIndex) then
        r.dist == s.dist[s.distIndex := r.current] && r.kIndices == s.kIndices[s.distIndex := k]
        && r.distIndex == s.distIndex + 1
      else
        r.dist == s.dist && r.kIndices == s.kIndices && r.distIndex == s.distIndex
  {
  }

  /**
   * What iteration `k` leaves behind: the new envelope is the inverse
   * transform of the solve of the transformed envelope with the term of
   * `SolvedTerm` and the untouched `w_n` buffer; the old envelope becomes
   * the spare buffer; `w_n` itself is never written; `axis_envelope`
   * receives the envelope before the step at row 1 when `k == 0` and the
   * new one at row `k + 1` otherwise, together with column `k + 1` of
   * `peak_envelope`; the snapshot, step index and counter move only when
   * `StoresAt` holds.
   */
  lemma IterationRecords(s: OldState, p: Params, lib: Library, tr: Water.Transforms, k: nat)
    requires ParamsOk(p) && Shaped(s, p) && Water.SolveKeepsLength(tr) && k < p.grid.nSteps
    ensures var r := Iteration(s, p, lib, tr, k);
      var g := p.grid;
      && r.current == Water.Transformed(tr.ifft,
           AbColumns(tr, s.left, s.right, FfdScn.LeftElements(g), FfdScn.RightElements(g),
                     Water.Transformed(tr.fft, s.current), SolvedTerm(s, p, lib, tr, k), s.wN, g.nR, g.nT))
      && r.next == s.current && r.wN == s.wN
      && (k == 0 ==> r.axis == s.axis[1 := s.current[g.axisNode]] && r.peak == s.peak)
      && (k > 0 ==> r.axis == s.axis[k + 1 := r.current[g.axisNode]]
                    && r.peak == WithColumn(s.peak, k + 1, Col(r.current, p.peakNode)))
      && (StoresAt(g.nSteps, p.distLimit, k, s.distIndex) ==>
            r.dist == s.dist[s.distIndex := r.current] && r.kIndices == s.kIndices[s.distIndex := k]
            && r.distIndex == s.distIndex + 1)
      && (!StoresAt(g.nSteps, p.distLimit, k, s.distIndex) ==>
            r.dist == s.dist && r.kIndices == s.kIndices && r.distIndex == s.distIndex)
      && r.left.lower == s.left.lower && r.left.upper == s.left.upper
      && r.right.lower == s.right.lower && r.right.upper == s.right.upper
  {
  }

  /**
   * The iteration reads nothing of `current_w_array`, `b_array`, the
   * Fourier buffer, `f_array` or the spare envelope buffer as they were
   * before it: two states that differ only there step alike. In
   * particular the nonlinear term of the previous step never reaches the
   * solve.
   */
  lemma PreviousTermUnused(s: OldState, t: OldState, p: Params, lib: Library, tr: Water.Transforms, k: nat)
    requires ParamsOk(p) && Shaped(s, p) && Shaped(t, p) && Water.SolveKeepsLength(tr) && k < p.grid.nSteps
    requires t == s.(w := t.w, b := t.b, fourier := t.fourier, f := t.f, next := t.next)
    ensures Iteration(s, p, lib, tr, k) == Iteration(t, p, lib, tr, k)
  {
  }

  // ---------------------------------------------------------------------
  // The whole run

  /** An iteration of the loop as a function of the state and the iteration index. */
  type StepFn = (OldState, nat) -> OldState

  /**
   * A marker that lets the link between a step function and `Iteration`
   * be used only where a proof names the state and index it needs.
   */
  ghost predicate Applied(s: OldState, k: nat) { true }

  /** `step` is iteration `k` of the loop on every well-shaped state. */
  ghost predicate Models(step: StepFn, p: Params, lib: Library, tr: Water.Transforms)
  {
    forall s: OldState, k: nat {:trigger Applied(s, k)} ::
      ParamsOk(p) && Shaped(s, p) && Water.SolveKeepsLength(tr) && k < p.grid.nSteps ==>
        step(s, k) == Iteration(s, p, lib, tr, k)
  }

  /** Such a step function exists. */
  ghost function Stepper(p: Params, lib: Library, tr: Water.Transforms): (step: StepFn)
    ensures Models(step, p, lib, tr)
  {
    (s: OldState, k: nat) =>
      if ParamsOk(p) && Shaped(s, p) && Water.SolveKeepsLength(tr) && k < p.grid.nSteps
      then Iteration(s, p, lib, tr, k) else s
  }

  /** The state after the first `k` iterations. */
  function Run(s: OldState, step: StepFn, k: nat): OldState
  {
    if k == 0 then s else step(Run(s, step, k - 1), k - 1)
  }

  /**
   * A marker for the records of one step, so that they are drawn only
   * where a proof names the state and index it needs.
   */
  ghost predicate Stepped(s: OldState, k: nat) { true }

  /** A step keeps the shapes and never writes the `w_n` buffer. */
  ghost predicate KeepsShape(step: StepFn, p: Params)
  {
    forall s: OldState, k: nat {:trigger Stepped(s, k)} :: Shaped(s, p) && k < p.grid.nSteps ==>
      Shaped(step(s, k), p) && step(s, k).wN == s.wN
  }

  /** Step `k` writes the pre-step envelope to row 1 when `k == 0`, and otherwise the new envelope to row `k + 1` and column `k + 1`. */
  ghost predicate RecordsLines(step: StepFn, p: Params)
    requires ParamsOk(p)
  {
    forall s: OldState, k: nat {:trigger Stepped(s, k)} :: Shaped(s, p) && k < p.grid.nSteps ==>
      Shaped(step(s, k), p)
      && (k == 0 ==> step(s, k).axis == s.axis[1 := s.current[p.grid.axisNode]] && step(s, k).peak == s.peak)
      && (k > 0 ==> step(s, k).axis == s.axis[k + 1 := step(s, k).current[p.grid.axisNode]]
                    && step(s, k).peak == WithColumn(s.peak, k + 1, Col(step(s, k).current, p.peakNode)))
  }

  /** Step `k` stores the new envelope and `k` at slot `DIST_INDEX` exactly when `StoresAt` holds. */
  ghost predicate RecordsStores(step: StepFn, p: Params)
    requires ParamsOk(p)
  {
    forall s: OldState, k: nat {:trigger Stepped(s, k)} :: Shaped(s, p) && k < p.grid.nSteps ==>
      Shaped(step(s, k), p) &&
      if StoresAt(p.grid.nSteps, p.distLimit, k, s.distIndex) then
        && step(s, k).dist == s.dist[s.distIndex := step(s, k).current]
        && step(s, k).kIndices == s.kIndices[s.distIndex := k]
        && step(s, k).distIndex == s.distIndex + 1
      else
        step(s, k).dist == s.dist && step(s, k).kIndices == s.kIndices && step(s, k).distIndex == s.distIndex
  }

  lemma ModelKeepsShape(step: StepFn, p: Params, lib: Library, tr: Water.Transforms)
    requires ParamsOk(p) && Water.SolveKeepsLength(tr) && Models(step, p, lib, tr)
    ensures KeepsShape(step, p)
  {
    forall s: OldState, k: nat | Shaped(s, p) && k < p.grid.nSteps
      ensures Shaped(step(s, k), p) && step(s, k).wN == s.wN
    {
      assert Applied(s, k);
      IterationRecords(s, p, lib, tr, k);
    }
  }

  lemma ModelRecordsLines(step: StepFn, p: Params, lib: Library, tr: Water.Transforms)
    requires ParamsOk(p) && Water.SolveKeepsLength(tr) && Models(step, p, lib, tr)
    ensures RecordsLines(step, p)
  {
    forall s: OldState, k: nat | Shaped(s, p) && k < p.grid.nSteps
      ensures Shaped(step(s, k), p)
      ensures && (k == 0 ==> step(s, k).axis == s.axis[1 := s.current[p.grid.axisNode]] && step(s, k).peak == s.peak)
              && (k > 0 ==> step(s, k).axis == s.axis[k + 1 := step(s, k).current[p.grid.axisNode]]
                            && step(s, k).peak == WithColumn(s.peak, k + 1, Col(step(s, k).current, p.peakNode)))
    {
      assert Applied(s, k);
      IterationLines(s, p, lib, tr, k);
    }
  }

  lemma ModelRecordsStores(step: StepFn, p: Params, lib: Library, tr: Water.Transforms)
    requires ParamsOk(p) && Water.SolveKeepsLength(tr) && Models(step, p, lib, tr)
    ensures RecordsStores(step, p)
  {
    forall s: OldState, k: nat | Shaped(s, p) && k < p.grid.nSteps
      ensures Shaped(step(s, k), p)
      ensures if StoresAt(p.grid.nSteps, p.distLimit, k, s.distIndex) then
        && step(s, k).dist == s.dist[s.distIndex := step(s, k).current]
        && step(s, k).kIndices == s.kIndices[s.distIndex := k]
        && step(s, k).distIndex == s.distIndex + 1
      else
        step(s, k).dist == s.dist && step(s, k).kIndices == s.kIndices && step(s, k).distIndex == s.distIndex
    {
      assert Applied(s, k);
      IterationStores(s, p, lib, tr, k);
    }
  }

  /** Every state of the run is well shaped and carries the `w_n` buffer it started with. */
  lemma {:induction false} TermNeverWritten(s: OldState, p: Params, step: StepFn, k: nat)
    requires ParamsOk(p) && KeepsShape(step, p) && Shaped(s, p) && k <= p.grid.nSteps
    ensures Shaped(Run(s, step, k), p) && Run(s, step, k).wN == s.wN
  {
    if k > 0 {
      TermNeverWritten(s, p, step, k - 1);
      assert Stepped(Run(s, step, k - 1), k - 1);
    }
  }

  /** Every state of the first `k` iterations is well shaped. */
  lemma RunShaped(s: OldState, p: Params, step: StepFn, k: nat)
    requires ParamsOk(p) && KeepsShape(step, p) && Shaped(s, p) && k <= p.grid.nSteps
    ensures forall j :: 0 <= j <= k ==> Shaped(Run(s, step, j), p)
  {
    forall j | 0 <= j <= k
      ensures Shaped(Run(s, step, j), p)
    {
      TermNeverWritten(s, p, step, j);
    }
  }

  /**
   * After `k` iterations from `DIST_INDEX = 0`: the counter is the number
   * of recorded steps `Recorded(N_STEPS, DIST_LIMIT, k)`, slot `i` of
   * `k_indices` holds the `i`-th recorded step and slot `i` of
   * `dist_envelope` the envelope that step produced, and the remaining
   * slots are untouched.
   */
  lemma {:induction false} ScheduleHistory(s: OldState, p: Params, step: StepFn, k: nat)
    requires ParamsOk(p) && KeepsShape(step, p) && RecordsStores(step, p)
    requires Shaped(s, p) && s.distIndex == 0 && k <= p.grid.nSteps
    ensures forall j :: 0 <= j <= k ==> Shaped(Run(s, step, j), p)
    ensures Shaped(Run(s, step, k), p)
    ensures var r, rec := Run(s, step, k), Recorded(p.grid.nSteps, p.distLimit, k);
      && r.distIndex == |rec| && |rec| <= p.distLimit + 1
      && (forall i :: 0 <= i < |rec| ==>
            rec[i] < k && r.kIndices[i] == rec[i] && r.dist[i] == Run(s, step, rec[i] + 1).current)
      && (forall i :: |rec| <= i <= p.distLimit ==> r.kIndices[i] == s.kIndices[i] && r.dist[i] == s.dist[i])
  {
    RunShaped(s, p, step, k);
    RecordedInBounds(p.grid.nSteps, p.distLimit, k);
    if k > 0 {
      ScheduleHistory(s, p, step, k - 1);
      ScheduleStep(s, p, step, k);
    }
  }

  /** The step from `k - 1` to `k` iterations of `ScheduleHistory`. */
  lemma ScheduleStep(s: OldState, p: Params, step: StepFn, k: nat)
    requires ParamsOk(p) && KeepsShape(step, p) && RecordsStores(step, p)
    requires Shaped(s, p) && 0 < k <= p.grid.nSteps
    requires forall j :: 0 <= j <= k ==> Shaped(Run(s, step, j), p)
    requires Shaped(Run(s, step, k - 1), p) && Shaped(Run(s, step, k), p)
    requires var r, rec := Run(s, step, k - 1), Recorded(p.grid.nSteps, p.distLimit, k - 1);
      && r.distIndex == |rec| && |rec| <= p.distLimit + 1
      && (forall i :: 0 <= i < |rec| ==>
            rec[i] < k - 1 && r.kIndices[i] == rec[i] && r.dist[i] == Run(s, step, rec[i] + 1).current)
      && (forall i :: |rec| <= i <= p.distLimit ==> r.kIndices[i] == s.kIndices[i] && r.dist[i] == s.dist[i])
    ensures var r, rec := Run(s, step, k), Recorded(p.grid.nSteps, p.distLimit, k);
      && r.distIndex == |rec| && |rec| <= p.distLimit + 1
      && (forall i :: 0 <= i < |rec| ==>
            rec[i] < k && r.kIndices[i] == rec[i] && r.dist[i] == Run(s, step, rec[i] + 1).current)
      && (forall i :: |rec| <= i <= p.distLimit ==> r.kIndices[i] == s.kIndices[i] && r.dist[i] == s.dist[i])
  {
    var n, d := p.grid.nSteps, p.distLimit;
    var q, rq := Run(s, step, k - 1), Recorded(n, d, k - 1);
    RecordedInBounds(n, d, k);
    assert Run(s, step, k) == step(q, k - 1);
    assert Stepped(q, k - 1);
    if StoresAt(n, d, k - 1, |rq|) {
      assert Recorded(n, d, k) == rq + [k - 1];
    } else {
      assert Recorded(n, d, k) == rq;
    }
  }

  /**
   * After `k` iterations: row 0 of `axis_envelope` is untouched; row 1
   * holds the on-axis row of the envelope before the first step; row `j`
   * for `2 <= j <= k` the on-axis row after `j` steps; the rows after
   * `k` (and row 1 when `k == 0`) are untouched.
   */
  lemma {:induction false} AxisHistory(s: OldState, p: Params, step: StepFn, k: nat)
    requires ParamsOk(p) && KeepsShape(step, p) && RecordsLines(step, p) && Shaped(s, p) && k <= p.grid.nSteps
    ensures forall j :: 0 <= j <= k ==> Shaped(Run(s, step, j), p)
    ensures Shaped(Run(s, step, k), p)
    ensures Run(s, step, k).axis[0] == s.axis[0]
    ensures k >= 1 ==> Run(s, step, k).axis[1] == s.current[p.grid.axisNode]
    ensures forall j :: 2 <= j <= k ==>
      Shaped(Run(s, step, j), p) && Run(s, step, k).axis[j] == Run(s, step, j).current[p.grid.axisNode]
    ensures forall j :: k < j <= p.grid.nSteps && j >= 1 ==> Run(s, step, k).axis[j] == s.axis[j]
  {
    RunShaped(s, p, step, k);
    if k > 0 {
      AxisHistory(s, p, step, k - 1);
      assert Run(s, step, k) == step(Run(s, step, k - 1), k - 1);
      assert Stepped(Run(s, step, k - 1), k - 1);
    }
  }

  /**
   * After `k` iterations: columns 0 and 1 of `peak_envelope` are never
   * written; column `j` for `2 <= j <= k` holds the `PEAK_NODE` column of
   * the envelope after `j` steps; the columns after `k` are untouched.
   */
  lemma {:induction false} PeakHistory(s: OldState, p: Params, step: StepFn, k: nat)
    requires ParamsOk(p) && KeepsShape(step, p) && RecordsLines(step, p) && Shaped(s, p) && k <= p.grid.nSteps
    ensures forall j :: 0 <= j <= k ==> Shaped(Run(s, step, j), p)
    ensures Shaped(Run(s, step, k), p)
    ensures forall i, j :: 0 <= i < p.grid.nR && 0 <= j <= p.grid.nSteps && (j < 2 || k < j) ==>
      Run(s, step, k).peak[i][j] == s.peak[i][j]
    ensures forall j :: 2 <= j <= k ==>
      && Shaped(Run(s, step, j), p)
      && forall i :: 0 <= i < p.grid.nR ==> Run(s, step, k).peak[i][j] == Run(s, step, j).current[i][p.peakNode]
  {
    RunShaped(s, p, step, k);
    if k > 0 {
      PeakHistory(s, p, step, k - 1);
      assert Run(s, step, k) == step(Run(s, step, k - 1), k - 1);
      assert Stepped(Run(s, step, k - 1), k - 1);
    }
  }

  // ---------------------------------------------------------------------
  // fft_algorithm and crank_nicolson_step on the buffers

  /**
   * `fft_algorithm(e_c, fe_c, w_c, w_n, b)`: `fe_c[:] = fft(e_c)`, then
   * `w_c[:] = fft(w_c)`, then `w_n[:] = fft(w_n)`. The local `b` is only
   * rebound, so the temporary buffer is never written. When `w_c` and
   * `w_n` are one array it is transformed twice.
   */
  method FftAlgorithm(tr: Water.Transforms, eC: array2<Complex>, feC: array2<Complex>,
                      wC: array2<Complex>, wN: array2<Complex>)
    requires eC != feC && eC != wC && eC != wN && feC != wC && feC != wN
    requires feC.Length0 == eC.Length0 && feC.Length1 == eC.Length1
    requires wC.Length0 == eC.Length0 && wC.Length1 == eC.Length1
    requires wN.Length0 == eC.Length0 && wN.Length1 == eC.Length1
    modifies feC, wC, wN
    ensures Snapshot(feC) == Water.Transformed(tr.fft, Snapshot(eC))
    ensures wC == wN ==> Snapshot(wC) == Water.Transformed(tr.fft, Water.Transformed(tr.fft, old(Snapshot(wC))))
    ensures wC != wN ==> Snapshot(wC) == Water.Transformed(tr.fft, old(Snapshot(wC)))
  {
    WriteMat(feC, Water.Transformed(tr.fft, Snapshot(eC)));
    WriteMat(wC, Water.Transformed(tr.fft, Snapshot(wC)));
    WriteMat(wN, Water.Transformed(tr.fft, Snapshot(wN)));
  }

  /**
   * `crank_nicolson_step(operators, vectors, entries)`: for each frequency
   * `l`, rewrite both main diagonals, force the boundary entries 1 and 0,
   * and write the solve against `R_l·fe[:, l] + 1.5·w_c[:, l] - 0.5·w_n[:, l]`
   * into column `l` of `fe_n`. The dictionary entries `c` and `d` are
   * rebound, not written, so no buffer other than `fe_n` changes.
   */
  method CrankNicolsonStep(tr: Water.Transforms, left: FfdScn.SparseOperator, right: FfdScn.SparseOperator,
                           le: seq<Complex>, re: seq<Complex>, feC: array2<Complex>, wC: array2<Complex>,
                           wN: array2<Complex>, feN: array2<Complex>)
    requires Water.SolveKeepsLength(tr) && left != right
    requires feN != feC && feN != wC && feN != wN
    requires WellFormed(left.diags) && Size(left.diags) == feC.Length0
    requires WellFormed(right.diags) && Size(right.diags) == feC.Length0
    requires feN.Length0 == feC.Length0 && feN.Length1 == feC.Length1
    requires wC.Length0 == feC.Length0 && wC.Length1 == feC.Length1
    requires wN.Length0 == feC.Length0 && wN.Length1 == feC.Length1
    requires feC.Length1 <= |le| && feC.Length1 <= |re|
    modifies left, right, feN
    ensures left.diags == FfdScn.Retuned(old(left.diags), le, One, feC.Length1)
    ensures right.diags == FfdScn.Retuned(old(right.diags), re, Zero, feC.Length1)
    ensures Snapshot(feN) == AbColumns(tr, old(left.diags), old(right.diags), le, re,
                                       Snapshot(feC), Snapshot(wC), Snapshot(wN), feC.Length0, feC.Length1)
  {
    var rows, cols := feC.Length0, feC.Length1;
    ghost var lt, rt := left.diags, right.diags;
    ghost var fe, w, wn := Snapshot(feC), Snapshot(wC), Snapshot(wN);
    ghost var x := AbColumns(tr, lt, rt, le, re, fe, w, wn, rows, cols);
    var l := 0;
    while l < cols
      invariant l <= cols
      invariant Snapshot(feC) == fe && Snapshot(wC) == w && Snapshot(wN) == wn
      invariant left.diags == FfdScn.Retuned(lt, le, One, l) && right.diags == FfdScn.Retuned(rt, re, Zero, l)
      invariant forall i, q :: 0 <= i < rows && 0 <= q < cols ==>
        feN[i, q] == if q < l then x[i][q] else old(feN[i, q])
    {
      left.SetDiag(le[l]);
      right.SetDiag(re[l]);
      left.SetLastStored(One);
      right.SetLastStored(Zero);
      assert left.diags == FfdScn.SetMain(lt, le[l], One);
      assert right.diags == FfdScn.SetMain(rt, re[l], Zero);
      var c := MatVec(right.diags, Column(feC, l));
      var d := AbCombination(c, Column(wC, l), Column(wN, l));
      assert Column(feC, l) == Col(fe, l) && Column(wC, l) == Col(w, l) && Column(wN, l) == Col(wn, l);
      assert Col(x, l) == tr.solve(left.diags, d);
      WriteColumn(feN, l, tr.solve(left.diags, d));
      l := l + 1;
    }
    SameEntries(Snapshot(feN), x, rows, cols);
  }

  // ---------------------------------------------------------------------
  // The script's buffers

  /**
   * The script's state. `wNext` is the name `next_w_array`, which the
   * loop rebinds: first to a copy of `current_w_array`, then to
   * `current_w_array` itself; `wN` is the array the `vectors` dictionary
   * captured before the loop.
   */
  /** `np.empty((N_STEPS + 1, N_TIME_NODES))` with row 0 set to `v`. */
  method AxisBuffer(rows: nat, v: seq<Complex>) returns (a: array2<Complex>)
    requires rows >= 1
    ensures fresh(a) && a.Length0 == rows && a.Length1 == |v| && Snapshot(a)[0] == v
  {
    a := new Complex[rows, |v|];
    WriteRow(a, 0, v);
  }

  /**
   * The script's two-dimensional buffers, all distinct: the six
   * `np.empty((N_RADI_NODES, N_TIME_NODES))` arrays, the first holding
   * `init` (`current_envelope`), then `axis_envelope` with row 0 set to
   * the on-axis row of `init`, then `peak_envelope`.
   */
  method Planes(params: Params, init: Mat<Complex>)
    returns (e: array2<Complex>, a1: array2<Complex>, a2: array2<Complex>, a3: array2<Complex>,
             a4: array2<Complex>, a5: array2<Complex>, ax: array2<Complex>, pk: array2<Complex>)
    requires ParamsOk(params) && IsMat(init, params.grid.nR, params.grid.nT)
    ensures fresh(e) && fresh(a1) && fresh(a2) && fresh(a3) && fresh(a4) && fresh(a5) && fresh(ax) && fresh(pk)
    ensures ax.Length0 == params.grid.nSteps + 1 && ax.Length1 == params.grid.nT
    ensures Snapshot(e) == init && Snapshot(ax)[0] == init[params.grid.axisNode]
    ensures e.Length0 == a1.Length0 == a2.Length0 == a3.Length0 == a4.Length0 == a5.Length0 == params.grid.nR
    ensures e.Length1 == a1.Length1 == a2.Length1 == a3.Length1 == a4.Length1 == a5.Length1 == params.grid.nT
    ensures pk.Length0 == params.grid.nR && pk.Length1 == params.grid.nSteps + 1
    ensures e != a1 && e != a2 && e != a3 && e != a4 && e != a5 && e != ax && e != pk
    ensures a1 != a2 && a1 != a3 && a1 != a4 && a1 != a5 && a1 != ax && a1 != pk
    ensures a2 != a3 && a2 != a4 && a2 != a5 && a2 != ax && a2 != pk
    ensures a3 != a4 && a3 != a5 && a3 != ax && a3 != pk
    ensures a4 != a5 && a4 != ax && a4 != pk && a5 != ax && a5 != pk && ax != pk
  {
    var g := params.grid;
    a1 := new Complex[g.nR, g.nT];
    a2 := new Complex[g.nR, g.nT];
    a3 := new Complex[g.nR, g.nT];
    a4 := new Complex[g.nR, g.nT];
    a5 := new Complex[g.nR, g.nT];
    pk := new Complex[g.nR, g.nSteps + 1];
    ax := AxisBuffer(g.nSteps + 1, init[g.axisNode]);
    e := FromMat(init, g.nR, g.nT);
  }

  class ScnOldSolver {
    const p: Params
    const leftOp: FfdScn.SparseOperator
    const rightOp: FfdScn.SparseOperator
    var current: array2<Complex>
    var next: array2<Complex>
    const fourier: array2<Complex>
    const w: array2<Complex>
    const wN: array2<Complex>
    var wNext: array2<Complex>
    const fArr: array2<Complex>
    const b: array3<Complex>
    const dist: array3<Complex>
    const axis: array2<Complex>
    const peak: array2<Complex>
    const kIndices: array<int>
    var distIndex: nat

    ghost predicate Valid()
      reads this, leftOp, rightOp
    {
      Shapes() && Distinct()
    }

    /** Every buffer has the shape the script allocates. */
    ghost predicate Shapes()
      reads this, leftOp, rightOp
    {
      var g := p.grid;
      && ParamsOk(p)
      && current.Length0 == g.nR && current.Length1 == g.nT
      && next.Length0 == g.nR && next.Length1 == g.nT
      && fourier.Length0 == g.nR && fourier.Length1 == g.nT
      && w.Length0 == g.nR && w.Length1 == g.nT
      && wN.Length0 == g.nR && wN.Length1 == g.nT
      && fArr.Length0 == g.nR && fArr.Length1 == g.nT
      && b.Length0 == g.nR && b.Length1 == g.nT && b.Length2 == 3
      && dist.Length0 == g.nR && dist.Length1 == p.distLimit + 1 && dist.Length2 == g.nT
      && axis.Length0 == g.nSteps + 1 && axis.Length1 == g.nT
      && peak.Length0 == g.nR && peak.Length1 == g.nSteps + 1
      && kIndices.Length == p.distLimit + 1 && distIndex <= p.distLimit + 1
      && WellFormed(leftOp.diags) && Size(leftOp.diags) == g.nR
      && WellFormed(rightOp.diags) && Size(rightOp.diags) == g.nR
    }

    /** The buffers are distinct arrays. */
    ghost predicate Distinct()
      reads this
    {
      && leftOp != rightOp && b != dist
      && current != next && current != fourier && current != w && current != wN
      && current != fArr && current != axis && current != peak
      && next != fourier && next != w && next != wN && next != fArr && next != axis && next != peak
      && fourier != w && fourier != wN && fourier != fArr && fourier != axis && fourier != peak
      && w != wN && w != fArr && w != axis && w != peak
      && wN != fArr && wN != axis && wN != peak
      && fArr != axis && fArr != peak && axis != peak
    }

    /** A buffer that is none of the state's buffers. */
    predicate Apart(a: array2<Complex>)
      reads this
    {
      && a != current && a != next && a != fourier && a != w && a != wN
      && a != fArr && a != axis && a != peak
    }

    function State(): (s: OldState)
      reads this, leftOp, rightOp, current, next, fourier, w, wN, fArr, b, dist, axis, peak, kIndices
      requires Valid()
      ensures Shaped(s, p)
    {
      OldState(Snapshot(current), Snapshot(next), Snapshot(fourier), Snapshot(w), Snapshot(wN),
               Snapshot(fArr), Channels(b), Snapshot3(dist), Snapshot(axis), Snapshot(peak),
               kIndices[..], distIndex, leftOp.diags, rightOp.diags)
    }

    /**
     * The set-up for an initial envelope `init`: both operators, fresh
     * buffers with unspecified contents (`np.empty`), `DIST_INDEX = 0`,
     * the initial envelope in `current_envelope` and its on-axis row in
     * row 0 of `axis_envelope`.
     */
    constructor (params: Params, init: Mat<Complex>)
      requires ParamsOk(params) && IsMat(init, params.grid.nR, params.grid.nT)
      ensures Valid() && p == params && wNext == wN
      ensures Snapshot(current) == init && Snapshot(axis)[0] == init[params.grid.axisNode]
      ensures distIndex == 0
      ensures leftOp.diags == FfdScn.InitialLeft(params.grid) && rightOp.diags == FfdScn.InitialRight(params.grid)
    {
      var g := params.grid;
      var e, nx, fo, wc, spare, fa, ax, pk := Planes(params, init);
      var bs := new Complex[g.nR, g.nT, 3];
      var ds := new Complex[g.nR, params.distLimit + 1, g.nT];
      var ks := new int[params.distLimit + 1];
      p := params;
      leftOp := new FfdScn.SparseOperator(FfdScn.InitialLeft(g));
      rightOp := new FfdScn.SparseOperator(FfdScn.InitialRight(g));
      current, next, fourier, w := e, nx, fo, wc;
      wN, wNext, fArr := spare, spare, fa;
      b, dist, axis, peak, kIndices := bs, ds, ax, pk, ks;
      distIndex := 0;
    }

    /** `nonlinear_terms(current_envelope, b_array)` then `adam_bashforth_step(b_array, current_w_array)`. */
    method NonlinearTerms(lib: Library)
      requires Valid()
      modifies b, w
      ensures State() == NonlinearStage(old(State()), p, lib)
    {
      var ch := NonlinearChannels(lib, p, Snapshot(current), p.grid.nR, p.grid.nT);
      WriteChannel(b, 0, ch[0]);
      WriteChannel(b, 1, ch[1]);
      WriteChannel(b, 2, ch[2]);
      assert Channels(b) == ch;
      WriteMat(w, AbTerms(p, Channels(b), p.grid.nR, p.grid.nT));
    }

    /** At `k == 0`: `axis_envelope[1] = current_envelope[AXIS_NODE]`. */
    method FirstAxis(k: nat)
      requires Valid() && k < p.grid.nSteps
      modifies axis
      ensures State() == FirstAxisStage(old(State()), p, k)
    {
      if k == 0 {
        WriteRow(axis, 1, Row(current, p.grid.axisNode));
        assert Row(current, p.grid.axisNode) == Snapshot(current)[p.grid.axisNode];
      }
    }

    /** `fft_algorithm(current_envelope, fourier_envelope, current_w_array, next_w_array, temp_array)`. */
    method Transform(tr: Water.Transforms)
      requires Valid() && (wNext == w || Apart(wNext))
      requires wNext.Length0 == p.grid.nR && wNext.Length1 == p.grid.nT
      modifies fourier, w, wNext
      ensures State() == TransformStage(old(State()), p, tr, wNext == w)
    {
      FftAlgorithm(tr, current, fourier, w, wNext);
    }

    /** `crank_nicolson_step(operators, vectors, entries)`. */
    method Solve(tr: Water.Transforms)
      requires Valid() && Water.SolveKeepsLength(tr)
      modifies leftOp, rightOp, fArr
      ensures Valid()
      ensures State() == SolveStage(old(State()), p, tr)
    {
      CrankNicolsonStep(tr, leftOp, rightOp, FfdScn.LeftElements(p.grid), FfdScn.RightElements(p.grid),
                        fourier, w, wN, fArr);
    }

    /** `ifft_algorithm(f_array, next_envelope)`, the swap of the envelope buffers, `next_w_array = current_w_array`. */
    method BackAndSwap(tr: Water.Transforms)
      requires Valid()
      modifies this, next
      ensures Valid() && current == old(next) && next == old(current) && wNext == w && distIndex == old(distIndex)
      ensures State() == BackAndSwapStage(old(State()), p, tr)
    {
      FfdScn.IfftAlgorithm(tr, fArr, next);
      current, next := next, current;
      wNext := w;
    }

    /** The snapshot store of iteration `k`. */
    method Store(k: nat)
      requires Valid()
      modifies this, dist, kIndices
      ensures Valid() && current == old(current) && next == old(next) && wNext == old(wNext)
      ensures State() == StoreStage(old(State()), p, k)
    {
      if StoresAt(p.grid.nSteps, p.distLimit, k, distIndex) {
        WriteSlot(dist, distIndex, Snapshot(current));
        kIndices[distIndex] := k;
        distIndex := distIndex + 1;
      }
    }

    /** For `k > 0`: `axis_envelope[k + 1] = current_envelope[AXIS_NODE]`, `peak_envelope[:, k + 1] = current_envelope[:, PEAK_NODE]`. */
    method Lines(k: nat)
      requires Valid() && k < p.grid.nSteps
      modifies axis, peak
      ensures State() == LinesStage(old(State()), p, k)
    {
      if k > 0 {
        WriteRow(axis, k + 1, Row(current, p.grid.axisNode));
        assert Row(current, p.grid.axisNode) == Snapshot(current)[p.grid.axisNode];
        WriteColumn(peak, k + 1, Column(current, p.peakNode));
        assert Column(current, p.peakNode) == Col(Snapshot(current), p.peakNode);
      }
    }

    /** The first part of iteration `k`: the nonlinear terms, the copy `next_w_array` names at `k == 0`, the first on-axis row. */
    method Prepare(lib: Library, k: nat)
      requires Valid() && k < p.grid.nSteps && (k == 0 || wNext == w)
      modifies this, b, w, axis
      ensures Valid() && current == old(current) && next == old(next) && distIndex == old(distIndex)
      ensures wNext.Length0 == p.grid.nR && wNext.Length1 == p.grid.nT
      ensures if k == 0 then fresh(wNext) && Apart(wNext) else wNext == w
      ensures State() == Prepared(old(State()), p, lib, k)
    {
      NonlinearTerms(lib);
      if k == 0 {
        wNext := FromMat(Snapshot(w), p.grid.nR, p.grid.nT);
      }
      FirstAxis(k);
    }

    /** The transforms and the Crank-Nicolson solve of iteration `k`. */
    method Advance(tr: Water.Transforms, k: nat)
      requires Valid() && Water.SolveKeepsLength(tr)
      requires wNext.Length0 == p.grid.nR && wNext.Length1 == p.grid.nT
      requires if k == 0 then Apart(wNext) else wNext == w
      modifies leftOp, rightOp, fourier, w, wNext, fArr
      ensures Valid()
      ensures State() == Advanced(old(State()), p, tr, k)
    {
      Transform(tr);
      Solve(tr);
    }

    /** The inverse transform, the swap, the snapshot store and the line records of iteration `k`. */
    method Finish(tr: Water.Transforms, k: nat)
      requires Valid() && k < p.grid.nSteps
      modifies this, next, dist, kIndices, axis, peak
      ensures Valid() && wNext == w && current == old(next) && next == old(current)
      ensures State() == Finished(old(State()), p, tr, k)
    {
      BackAndSwap(tr);
      Store(k);
      Lines(k);
    }

    /** One pass of the loop, iteration `k`; after the first, `next_w_array` is `current_w_array`. */
    method Iterate(lib: Library, tr: Water.Transforms, k: nat)
      requires Valid() && Water.SolveKeepsLength(tr) && k < p.grid.nSteps
      requires k == 0 || wNext == w
      modifies this, leftOp, rightOp, current, next, fourier, w, fArr, b, dist, axis, peak, kIndices
      ensures Valid() && wNext == w
      ensures current == old(next) && next == old(current)
      ensures State() == Iteration(old(State()), p, lib, tr, k)
    {
      Prepare(lib, k);
      Advance(tr, k);
      Finish(tr, k);
    }

    /** Iteration `k` of a run from `s0`, seen through a step function pinned to `Iteration`. */
    method Step(lib: Library, tr: Water.Transforms, ghost step: StepFn, k: nat, ghost s0: OldState)
      requires Valid() && Water.SolveKeepsLength(tr) && Models(step, p, lib, tr) && k < p.grid.nSteps
      requires k == 0 || wNext == w
      requires State() == Run(s0, step, k)
      modifies this, leftOp, rightOp, current, next, fourier, w, fArr, b, dist, axis, peak, kIndices
      ensures Valid() && wNext == w
      ensures current == old(next) && next == old(current)
      ensures State() == Run(s0, step, k + 1)
    {
      ghost var sk := State();
      Iterate(lib, tr, k);
      assert Applied(sk, k);
    }

    /** The loop `for k in range(N_STEPS)`, for a step function pinned to `Iteration`. */
    method Propagate(lib: Library, tr: Water.Transforms, ghost step: StepFn)
      requires Valid() && Water.SolveKeepsLength(tr) && Models(step, p, lib, tr)
      requires wNext == wN
      modifies this, leftOp, rightOp, current, next, fourier, w, fArr, b, dist, axis, peak, kIndices
      ensures Valid()
      ensures State() == Run(old(State()), step, p.grid.nSteps)
    {
      ghost var s0 := State();
      ghost var e0, e1 := current, next;
      var k := 0;
      while k < p.grid.nSteps
        invariant k <= p.grid.nSteps && Valid()
        invariant (current == e0 && next == e1) || (current == e1 && next == e0)
        invariant k == 0 || wNext == w
        invariant State() == Run(s0, step, k)
      {
        Step(lib, tr, step, k, s0);
        k := k + 1;
      }
    }
  }
}
