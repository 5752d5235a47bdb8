/**
 * The kernels of the water propagator (`water_2d1_fcn_rk4.py`): its
 * Crank-Nicolson operators, the electron-density and field right-hand
 * sides with their classical Runge-Kutta steps, the column sweeps that
 * apply them, the dispersion and envelope solves, the integer quantities
 * of the domain and the step numbering of the run.
 */
module Water {
  import opened Numerics
  import opened Grid
  import opened Tridiagonal
  import opened Fss

  // ---------------------------------------------------------------------
  // crank_nicolson_matrix and setup_operators

  /**
   * `crank_nicolson_matrix(n_r, pos, coef)`: main diagonal `1 + 2c` with a
   * last entry of 1 for "left" and 0 for any other position, the doubled
   * axis entry `-2c`, and the cylindrical stencil on the interior rows.
   */
  function CrankNicolsonMatrix(nR: nat, pos: string, c: Complex): (t: Tridiag)
    requires nR >= 2
    ensures WellFormed(t) && Size(t) == nR
  {
    var main := Full(nR, CoefMain(c));
    CnOperator(nR, c, main[nR - 1 := if pos == "left" then One else Zero], Scale(-2.0, c))
  }

  /** Every entry of the matrix `crank_nicolson_matrix` builds. */
  lemma CrankNicolsonMatrixRows(nR: nat, pos: string, c: Complex)
    requires nR >= 2
    ensures var a := CrankNicolsonMatrix(nR, pos, c);
      && (forall i :: 0 <= i < nR - 1 ==> Entry(a, i, i) == CoefMain(c))
      && Entry(a, 0, 1) == Scale(-2.0, c)
      && (forall i :: 1 <= i <= nR - 2 ==>
            Entry(a, i, i - 1) == CnLower(c, i) && Entry(a, i, i + 1) == CnUpper(c, i))
      && (pos == "left" ==> IdentityRow(a, nR - 1))
      && (pos != "left" ==> ZeroRow(a, nR - 1))
  {
    var main := Full(nR, CoefMain(c))[nR - 1 := if pos == "left" then One else Zero];
    CnOperatorEntries(nR, c, main, Scale(-2.0, c));
  }

  /**
   * The water operators are the ones the split-step solver builds: the
   * "left" matrix is the one its band stores, any other position gives its
   * "right" matrix.
   */
  lemma SameMatricesAsFss(nR: nat, c: Complex)
    requires nR >= 2
    ensures CrankNicolsonMatrix(nR, "left", c) == LeftMatrix(nR, c)
    ensures forall pos :: pos != "left" ==> CrankNicolsonMatrix(nR, pos, c) == ComputeMatrix(nR, "right", c).t
  {
    var main := Full(nR, CoefMain(c));
    BandRoundTrip(CnOperator(nR, c, main[nR - 1 := One], Scale(-2.0, c)));
  }

  /** What `setup_operators` stores: the Fourier factor and the two Crank-Nicolson matrices. */
  datatype CnOperators = CnOperators(fourier: seq<Complex>, left: Tridiag, right: Tridiag)

  /**
   * `setup_operators()`, with the grid read as in the split-step solver:
   * `z_res` the distance step, `r_res` the radial step, `t_res` the time
   * step, `k_n` the wavenumber in the medium and `k_pp` the dispersion
   * coefficient of water. `splu` keeps the matrix it factors.
   */
  function SetupOperators(lib: Library, g: FssGrid): (ops: CnOperators)
    requires GridOk(g)
    ensures |ops.fourier| == g.nT
    ensures WellFormed(ops.left) && Size(ops.left) == g.nR
    ensures WellFormed(ops.right) && Size(ops.right) == g.nR
  {
    var matCnt := Scale(DiffCoef(g), I);
    CnOperators(
      seq(g.nT, k requires 0 <= k < g.nT => lib.cis(PhaseOf(lib, g, FftIndex(k, g.nT)))),
      CrankNicolsonMatrix(g.nR, "left", matCnt),
      CrankNicolsonMatrix(g.nR, "right", Neg(matCnt)))
  }

  /** The water propagator and the split-step solver set up the same operators. */
  lemma SameOperatorsAsFss(lib: Library, g: FssGrid)
    requires GridOk(g)
    ensures var ops, fss := SetupOperators(lib, g), SetOperators(lib, g);
      && ops.fourier == fss.dispExp
      && ops.left == FromBand(fss.matrixLeft)
      && ops.right == fss.matrixRight
  {
    var matCnt := Scale(DiffCoef(g), I);
    SameMatricesAsFss(g.nR, matCnt);
    SameMatricesAsFss(g.nR, Neg(matCnt));
  }

  /**
   * The operators form a Crank-Nicolson pair: they add up to twice the
   * identity on every row but the last, where the left row is the identity
   * row and the right row is zero.
   */
  lemma OperatorsArePair(lib: Library, g: FssGrid)
    requires GridOk(g)
    ensures var ops := SetupOperators(lib, g);
      && (forall i, j :: 0 <= i < g.nR - 1 && 0 <= j < g.nR ==>
            Add(Entry(ops.left, i, j), Entry(ops.right, i, j)) == if i == j then Of(2.0) else Zero)
      && IdentityRow(ops.left, g.nR - 1) && ZeroRow(ops.right, g.nR - 1)
  {
    SameOperatorsAsFss(lib, g);
    CrankNicolsonPair(lib, g);
  }

  // ---------------------------------------------------------------------
  // Electron density

  /** `dens_op_args`: photon number, neutral density, OFI and avalanche coefficients. */
  datatype DensityArgs = DensityArgs(nPh: nat, neutral: real, ofi: real, ava: real)

  /** `set_density_operator` at one point: `ofi·|E|^(2n)·(N_n − N) + ava·N·|E|²`. */
  function DensityOperator(n: real, e: Complex, a: DensityArgs): real
  {
    var e2 := AbsSq(e);
    a.ofi * Pow(e2, a.nPh) * (a.neutral - n) + a.ava * n * e2
  }

  /** `rk4_density_step` at one point: stages at `+dt/2`, `+dt/2`, `+dt`, weights 1, 2, 2, 1. */
  function Rk4DensityPoint(e: Complex, n: real, a: DensityArgs, dt: real, dt2: real, dt6: real): real
  {
    var k1 := DensityOperator(n, e, a);
    var k2 := DensityOperator(n + dt2 * k1, e, a);
    var k3 := DensityOperator(n + dt2 * k2, e, a);
    var k4 := DensityOperator(n + dt * k3, e, a);
    n + dt6 * (k1 + 2.0 * k2 + 2.0 * k3 + k4)
  }

  /** `rk4_density_step` on one time slice: every radial point steps on its own. */
  function Rk4DensityStep(e: seq<Complex>, n: seq<real>, a: DensityArgs, dt: real, dt2: real, dt6: real)
    : (r: seq<real>)
    requires |e| == |n|
    ensures |r| == |n|
  {
    seq(|n|, i requires 0 <= i < |n| => Rk4DensityPoint(e[i], n[i], a, dt, dt2, dt6))
  }

  /** Without a field the density has no source: the right-hand side vanishes. */
  lemma DarkDensityOperator(n: real, a: DensityArgs)
    requires a.nPh >= 1
    ensures DensityOperator(n, Zero, a) == 0.0
  {
    PowZeroBase(a.nPh);
  }

  /** A stage input `x + h·k` with a zero slope `k` is `x` itself. */
  lemma ZeroSlope(x: real, h: real, k: real)
    requires k == 0.0
    ensures x + h * k == x
  {
  }

  /** Without a field, `rk4_density_step` returns the density it was given. */
  lemma DarkDensityStep(n: real, a: DensityArgs, dt: real, dt2: real, dt6: real)
    requires a.nPh >= 1
    ensures Rk4DensityPoint(Zero, n, a, dt, dt2, dt6) == n
  {
    DarkDensityOperator(n, a);
    var k1 := DensityOperator(n, Zero, a);
    ZeroSlope(n, dt2, k1);
    ZeroSlope(n, dt, k1);
    DarkDensityOperator(n + dt2 * k1, a);
    DarkDensityOperator(n + dt * k1, a);
    ZeroSlope(n, dt6, k1 + 2.0 * k1 + 2.0 * k1 + k1);
  }

  /** `n_c` after `n_c[:, 0] = 0`. */
  function ClearedFirstColumn(n: Mat<real>, rows: nat, cols: nat): (r: Mat<real>)
    requires IsMat(n, rows, cols)
    ensures IsMat(r, rows, cols)
    ensures forall i, j :: 0 <= i < rows && 0 <= j < cols ==> r[i][j] == if j == 0 then 0.0 else n[i][j]
  {
    seq(rows, i requires 0 <= i < rows => seq(cols, j requires 0 <= j < cols => if j == 0 then 0.0 else n[i][j]))
  }

  /**
   * `n_n` after `solve_density`: zero at time index 0; index `ll + 1 < n_t`
   * is one step from index `ll` of `n_c` (the density of the previous
   * propagation step, its first column cleared) under field `e_c[:, ll]`;
   * indices from `n_t` on keep their contents.
   */
  function DensitySweep(e: Mat<Complex>, n: Mat<real>, next: Mat<real>, rows: nat, cols: nat, nT: nat,
                        a: DensityArgs, dt: real, dt2: real, dt6: real): (r: Mat<real>)
    requires IsMat(e, rows, cols) && IsMat(n, rows, cols) && IsMat(next, rows, cols)
    ensures IsMat(r, rows, cols)
  {
    var n0 := ClearedFirstColumn(n, rows, cols);
    seq(rows, i requires 0 <= i < rows => seq(cols, j requires 0 <= j < cols =>
      if j == 0 then 0.0
      else if j < nT then Rk4DensityPoint(e[i][j - 1], n0[i][j - 1], a, dt, dt2, dt6)
      else next[i][j]))
  }

  /**
   * Without a field the sweep does not integrate along the pulse: it hands
   * back the previous propagation step's density, moved one time slice on.
   */
  lemma DarkSweepShiftsDensity(e: Mat<Complex>, n: Mat<real>, next: Mat<real>, rows: nat, cols: nat, nT: nat,
                               a: DensityArgs, dt: real, dt2: real, dt6: real)
    requires IsMat(e, rows, cols) && IsMat(n, rows, cols) && IsMat(next, rows, cols)
    requires a.nPh >= 1 && nT <= cols
    requires forall i, j :: 0 <= i < rows && 0 <= j < cols ==> e[i][j] == Zero
    ensures var r := DensitySweep(e, n, next, rows, cols, nT, a, dt, dt2, dt6);
      forall i, j :: 0 <= i < rows && 0 <= j < nT ==>
        r[i][j] == if j <= 1 then 0.0 else n[i][j - 1]
  {
    var r := DensitySweep(e, n, next, rows, cols, nT, a, dt, dt2, dt6);
    var n0 := ClearedFirstColumn(n, rows, cols);
    forall i, j | 0 <= i < rows && 0 <= j < nT
      ensures r[i][j] == if j <= 1 then 0.0 else n[i][j - 1]
    {
      if j >= 1 {
        DarkDensityStep(n0[i][j - 1], a, dt, dt2, dt6);
      }
    }
  }

  /** The loop of `solve_density`: column `ll + 1` of `n_n` is one step from column `ll` of `n_c`. */
  method DensityColumns(eC: array2<Complex>, nC: array2<real>, nN: array2<real>, nT: nat,
                        a: DensityArgs, dt: real, dt2: real, dt6: real, ghost n0: Mat<real>, ghost next1: Mat<real>)
    requires nC != nN
    requires nC.Length0 == eC.Length0 && nN.Length0 == eC.Length0
    requires nC.Length1 == eC.Length1 && nN.Length1 == eC.Length1
    requires nT <= eC.Length1 && IsMat(next1, eC.Length0, eC.Length1)
    requires Snapshot(nC) == n0
    requires forall p, q :: 0 <= p < eC.Length0 && 0 <= q < eC.Length1 ==>
      nN[p, q] == if q == 0 then 0.0 else next1[p][q]
    modifies nN
    ensures forall p, q :: 0 <= p < eC.Length0 && 0 <= q < eC.Length1 ==>
      nN[p, q] == if q == 0 then 0.0
                  else if q < nT then Rk4DensityPoint(eC[p, q - 1], n0[p][q - 1], a, dt, dt2, dt6)
                  else next1[p][q]
  {
    var rows, cols := eC.Length0, eC.Length1;
    var ll := 0;
    while ll + 1 < nT
      invariant ll == 0 || ll < nT
      invariant forall p, q :: 0 <= p < rows && 0 <= q < cols ==>
        nN[p, q] == if q == 0 then 0.0
                    else if q <= ll then Rk4DensityPoint(eC[p, q - 1], n0[p][q - 1], a, dt, dt2, dt6)
                    else next1[p][q]
    {
      var column := Rk4DensityStep(Column(eC, ll), Column(nC, ll), a, dt, dt2, dt6);
      WriteColumn(nN, ll + 1, column);
      ll := ll + 1;
    }
  }

  /** `solve_density(e_c, n_c, n_aux, n_n, n_t, ...)`; `n_aux` is only rebound, never written. */
  method SolveDensity(eC: array2<Complex>, nC: array2<real>, nAux: array<real>, nN: array2<real>, nT: nat,
                      a: DensityArgs, dt: real, dt2: real, dt6: real)
    requires nC != nN
    requires nC.Length0 == eC.Length0 && nN.Length0 == eC.Length0
    requires nC.Length1 == eC.Length1 && nN.Length1 == eC.Length1
    requires eC.Length1 >= 1 && nT <= eC.Length1
    modifies nC, nN
    ensures Snapshot(nC) == ClearedFirstColumn(old(Snapshot(nC)), eC.Length0, eC.Length1)
    ensures Snapshot(nN) == DensitySweep(Snapshot(eC), old(Snapshot(nC)), old(Snapshot(nN)),
                                         eC.Length0, eC.Length1, nT, a, dt, dt2, dt6)
  {
    var rows, cols := eC.Length0, eC.Length1;
    ghost var n1, next1 := Snapshot(nC), Snapshot(nN);
    WriteColumn(nN, 0, seq(rows, _ => 0.0));
    WriteColumn(nC, 0, seq(rows, _ => 0.0));
    ghost var n0 := ClearedFirstColumn(n1, rows, cols);
    SameEntries(Snapshot(nC), n0, rows, cols);
    DensityColumns(eC, nC, nN, nT, a, dt, dt2, dt6, n0, next1);
    SameEntries(Snapshot(nN), DensitySweep(Snapshot(eC), n1, next1, rows, cols, nT, a, dt, dt2, dt6), rows, cols);
  }

  // ---------------------------------------------------------------------
  // Nonlinear field terms

  /** `field_op_args`: photon number, plasma, multiphoton-absorption and Kerr coefficients. */
  datatype FieldArgs = FieldArgs(nPh: nat, plasma: Complex, mpa: real, kerr: Complex)

  /** `set_field_operator` at one point: `E·(p·N + m·|E|^(2n−2) + k·|E|²)`. */
  function FieldOperator(e: Complex, n: real, a: FieldArgs): Complex
    requires a.nPh >= 1
  {
    Mul(e, FieldFactor(AbsSq(e), n, a))
  }

  /** The factor `p·N + m·|E|^(2n−2) + k·|E|²` multiplying the field, for `e2 = |E|²`. */
  function FieldFactor(e2: real, n: real, a: FieldArgs): Complex
    requires a.nPh >= 1
  {
    Add(Add(Scale(n, a.plasma), Of(a.mpa * Pow(e2, a.nPh - 1))), Scale(e2, a.kerr))
  }

  /** `rk4_field_step` at one point: the increment `dz/6·(k1 + 2k2 + 2k3 + k4)`, not the new field. */
  function Rk4FieldPoint(e: Complex, n: real, a: FieldArgs, dz: real, dz2: real, dz6: real): Complex
    requires a.nPh >= 1
  {
    var k1 := FieldOperator(e, n, a);
    var k2 := FieldOperator(Add(e, Scale(dz2, k1)), n, a);
    var k3 := FieldOperator(Add(e, Scale(dz2, k2)), n, a);
    var k4 := FieldOperator(Add(e, Scale(dz, k3)), n, a);
    Scale(dz6, Add(Add(Add(k1, Scale(2.0, k2)), Scale(2.0, k3)), k4))
  }

  /** `rk4_field_step` on one time slice: every radial point steps on its own. */
  function Rk4FieldStep(e: seq<Complex>, n: seq<real>, a: FieldArgs, dz: real, dz2: real, dz6: real)
    : (r: seq<Complex>)
    requires a.nPh >= 1 && |e| == |n|
    ensures |r| == |e|
  {
    seq(|e|, i requires 0 <= i < |e| => Rk4FieldPoint(e[i], n[i], a, dz, dz2, dz6))
  }

  /** The nonlinear terms depend on the field only through `|E|²`, times the field itself. */
  lemma FieldOperatorOdd(e: Complex, n: real, a: FieldArgs)
    requires a.nPh >= 1
    ensures FieldOperator(Neg(e), n, a) == Neg(FieldOperator(e, n, a))
  {
    assert AbsSq(Neg(e)) == AbsSq(e);
    NegTimes(e, FieldFactor(AbsSq(e), n, a));
  }

  lemma NegTimes(e: Complex, f: Complex)
    ensures Mul(Neg(e), f) == Neg(Mul(e, f))
  {
  }

  /** A stage input built from the negated field and slope is the negated stage input. */
  lemma NegatedStage(e: Complex, h: real, k: Complex)
    ensures Add(Neg(e), Scale(h, Neg(k))) == Neg(Add(e, Scale(h, k)))
  {
  }

  /** The weighted sum of negated stages is the negated weighted sum. */
  lemma NegatedCombination(h: real, k1: Complex, k2: Complex, k3: Complex, k4: Complex)
    ensures Scale(h, Add(Add(Add(Neg(k1), Scale(2.0, Neg(k2))), Scale(2.0, Neg(k3))), Neg(k4)))
         == Neg(Scale(h, Add(Add(Add(k1, Scale(2.0, k2)), Scale(2.0, k3)), k4)))
  {
  }

  /** Flipping the sign of the field flips the sign of the increment. */
  lemma FieldStepOdd(e: Complex, n: real, a: FieldArgs, dz: real, dz2: real, dz6: real)
    requires a.nPh >= 1
    ensures Rk4FieldPoint(Neg(e), n, a, dz, dz2, dz6) == Neg(Rk4FieldPoint(e, n, a, dz, dz2, dz6))
  {
    var k1 := FieldOperator(e, n, a);
    var k2 := FieldOperator(Add(e, Scale(dz2, k1)), n, a);
    var k3 := FieldOperator(Add(e, Scale(dz2, k2)), n, a);
    var k4 := FieldOperator(Add(e, Scale(dz, k3)), n, a);
    FieldOperatorOdd(e, n, a);
    NegatedStage(e, dz2, k1);
    FieldOperatorOdd(Add(e, Scale(dz2, k1)), n, a);
    NegatedStage(e, dz2, k2);
    FieldOperatorOdd(Add(e, Scale(dz2, k2)), n, a);
    NegatedStage(e, dz, k3);
    FieldOperatorOdd(Add(e, Scale(dz, k3)), n, a);
    NegatedCombination(dz6, k1, k2, k3, k4);
  }

  /** Without a field the increment is zero: the zero field is its own negation. */
  lemma DarkFieldStep(n: real, a: FieldArgs, dz: real, dz2: real, dz6: real)
    requires a.nPh >= 1
    ensures Rk4FieldPoint(Zero, n, a, dz, dz2, dz6) == Zero
  {
    FieldStepOdd(Zero, n, a, dz, dz2, dz6);
    assert Neg(Zero) == Zero;
  }

  /** `w_c` after `solve_nonlinear`: the increment of every point of the first `n_t` slices. */
  function NonlinearSweep(e: Mat<Complex>, n: Mat<real>, w: Mat<Complex>, rows: nat, cols: nat, nT: nat,
                          a: FieldArgs, dz: real, dz2: real, dz6: real): (r: Mat<Complex>)
    requires a.nPh >= 1
    requires IsMat(e, rows, cols) && IsMat(n, rows, cols) && IsMat(w, rows, cols)
    ensures IsMat(r, rows, cols)
  {
    seq(rows, i requires 0 <= i < rows => seq(cols, j requires 0 <= j < cols =>
      if j < nT then Rk4FieldPoint(e[i][j], n[i][j], a, dz, dz2, dz6) else w[i][j]))
  }

  /** A slice without field gets no nonlinear term. */
  lemma DarkSliceNoNonlinearTerm(e: Mat<Complex>, n: Mat<real>, w: Mat<Complex>, rows: nat, cols: nat, nT: nat,
                                 a: FieldArgs, dz: real, dz2: real, dz6: real, j: nat)
    requires a.nPh >= 1
    requires IsMat(e, rows, cols) && IsMat(n, rows, cols) && IsMat(w, rows, cols)
    requires j < nT && j < cols
    requires forall i :: 0 <= i < rows ==> e[i][j] == Zero
    ensures forall i :: 0 <= i < rows ==> NonlinearSweep(e, n, w, rows, cols, nT, a, dz, dz2, dz6)[i][j] == Zero
  {
    forall i | 0 <= i < rows
      ensures NonlinearSweep(e, n, w, rows, cols, nT, a, dz, dz2, dz6)[i][j] == Zero
    {
      DarkFieldStep(n[i][j], a, dz, dz2, dz6);
    }
  }

  /** `solve_nonlinear(e_c, n_c, e_aux, w_c, n_t, ...)`; `e_aux` is only rebound, never written. */
  method SolveNonlinear(eC: array2<Complex>, nC: array2<real>, eAux: array<Complex>, wC: array2<Complex>, nT: nat,
                        a: FieldArgs, dz: real, dz2: real, dz6: real)
    requires a.nPh >= 1 && eC != wC
    requires nC.Length0 == eC.Length0 && wC.Length0 == eC.Length0
    requires nC.Length1 == eC.Length1 && wC.Length1 == eC.Length1
    requires nT <= eC.Length1
    modifies wC
    ensures Snapshot(wC) == NonlinearSweep(Snapshot(eC), Snapshot(nC), old(Snapshot(wC)),
                                           eC.Length0, eC.Length1, nT, a, dz, dz2, dz6)
  {
    var rows, cols := eC.Length0, eC.Length1;
    ghost var w0 := Snapshot(wC);
    var ll := 0;
    while ll < nT
      invariant ll <= nT
      invariant forall p, q :: 0 <= p < rows && 0 <= q < cols ==>
        wC[p, q] == if q < ll then Rk4FieldPoint(eC[p, q], nC[p, q], a, dz, dz2, dz6) else w0[p][q]
    {
      var column := Rk4FieldStep(Column(eC, ll), Column(nC, ll), a, dz, dz2, dz6);
      WriteColumn(wC, ll, column);
      ll := ll + 1;
    }
    SameEntries(Snapshot(wC), NonlinearSweep(Snapshot(eC), Snapshot(nC), w0, rows, cols, nT, a, dz, dz2, dz6),
                rows, cols);
  }

  // ---------------------------------------------------------------------
  // Dispersion and the envelope solve

  /**
   * The library calls of a step: `fft` and `ifft` along the time axis,
   * each mapping a buffer to entry (i, j) of its transform, and the solve
   * of the factored left matrix.
   */
  datatype Transforms = Transforms(
    fft: (Mat<Complex>, nat, nat) -> Complex,
    ifft: (Mat<Complex>, nat, nat) -> Complex,
    solve: (Tridiag, seq<Complex>) -> seq<Complex>)

  /** The transform of every entry of a buffer. */
  function Transformed(f: (Mat<Complex>, nat, nat) -> Complex, m: Mat<Complex>): (r: Mat<Complex>)
    ensures |r| == |m| && forall i :: 0 <= i < |m| ==> |r[i]| == |m[i]|
  {
    seq(|m|, i requires 0 <= i < |m| => seq(|m[i]|, j requires 0 <= j < |m[i]| => f(m, i, j)))
  }

  /** `ifft` undoes `fft`. */
  ghost predicate InverseTransforms(tr: Transforms)
  {
    forall m: Mat<Complex>, i: nat, j: nat :: i < |m| && j < |m[i]| ==>
      tr.ifft(Transformed(tr.fft, m), i, j) == m[i][j]
  }

  /** A solve hands back a vector as long as its right-hand side. */
  ghost predicate SolveKeepsLength(tr: Transforms)
  {
    forall t: Tridiag, rhs: seq<Complex> :: |tr.solve(t, rhs)| == |rhs|
  }

  /** `b` after `solve_dispersion`: `ifft(fc · fft(e_c))`, the factor broadcast along each row. */
  function Dispersion(tr: Transforms, fc: seq<Complex>, e: Mat<Complex>, rows: nat, cols: nat): (b: Mat<Complex>)
    requires IsMat(e, rows, cols) && |fc| == cols
    ensures IsMat(b, rows, cols)
  {
    var spectrum := seq(rows, i requires 0 <= i < rows =>
      seq(cols, j requires 0 <= j < cols => Mul(fc[j], tr.fft(e, i, j))));
    seq(rows, i requires 0 <= i < rows => seq(cols, j requires 0 <= j < cols => tr.ifft(spectrum, i, j)))
  }

  /** A Fourier factor of ones hands the envelope back unchanged. */
  lemma UnitFactorKeepsEnvelope(tr: Transforms, fc: seq<Complex>, e: Mat<Complex>, rows: nat, cols: nat)
    requires InverseTransforms(tr)
    requires IsMat(e, rows, cols) && |fc| == cols
    requires forall j :: 0 <= j < cols ==> fc[j] == One
    ensures Dispersion(tr, fc, e, rows, cols) == e
  {
    var spectrum := seq(rows, i requires 0 <= i < rows =>
      seq(cols, j requires 0 <= j < cols => Mul(fc[j], tr.fft(e, i, j))));
    forall i, j | 0 <= i < rows && 0 <= j < cols
      ensures spectrum[i][j] == Transformed(tr.fft, e)[i][j]
    {
      assert Mul(One, tr.fft(e, i, j)) == tr.fft(e, i, j);
    }
    SameEntries(spectrum, Transformed(tr.fft, e), rows, cols);
    SameEntries(Dispersion(tr, fc, e, rows, cols), e, rows, cols);
  }

  /** `solve_dispersion(fc, e_c, b)`. */
  method SolveDispersion(tr: Transforms, fc: seq<Complex>, eC: array2<Complex>, b: array2<Complex>)
    requires eC != b && b.Length0 == eC.Length0 && b.Length1 == eC.Length1 && |fc| == eC.Length1
    modifies b
    ensures Snapshot(b) == Dispersion(tr, fc, Snapshot(eC), eC.Length0, eC.Length1)
  {
    var d := Dispersion(tr, fc, Snapshot(eC), eC.Length0, eC.Length1);
    WriteRows(b, b.Length0, (i: nat, j: nat) => if i < |d| && j < |d[i]| then d[i][j] else Zero);
    SameEntries(Snapshot(b), d, b.Length0, b.Length1);
  }

  /**
   * `e_n` after `solve_envelope`: column `j < n_t` is `lm.solve(rm @ b[:, j] + w_c[:, j])`,
   * the same right-hand side as `Fss.EnvelopeRhs`.
   */
  function EnvelopeSweep(tr: Transforms, lm: Tridiag, rm: Tridiag, b: Mat<Complex>, w: Mat<Complex>,
                         en: Mat<Complex>, cols: nat, nT: nat): (r: Mat<Complex>)
    requires SolveKeepsLength(tr)
    requires WellFormed(rm) && IsMat(b, Size(rm), cols) && IsMat(w, Size(rm), cols) && IsMat(en, Size(rm), cols)
    ensures IsMat(r, Size(rm), cols)
  {
    seq(Size(rm), i requires 0 <= i < Size(rm) => seq(cols, j requires 0 <= j < cols =>
      if j < nT then tr.solve(lm, EnvelopeRhs(rm, b, w, cols, j))[i] else en[i][j]))
  }

  /** With an exact solve, every column written satisfies `lm·x = rm·b + w`. */
  lemma EnvelopeSolvesSystem(tr: Transforms, lm: Tridiag, rm: Tridiag, b: Mat<Complex>, w: Mat<Complex>,
                             en: Mat<Complex>, cols: nat, nT: nat, j: nat)
    requires SolveKeepsLength(tr) && Solves(tr.solve, lm) && Size(lm) == Size(rm)
    requires WellFormed(rm) && IsMat(b, Size(rm), cols) && IsMat(w, Size(rm), cols) && IsMat(en, Size(rm), cols)
    requires j < nT && j < cols
    ensures MatVec(lm, Col(EnvelopeSweep(tr, lm, rm, b, w, en, cols, nT), j)) == EnvelopeRhs(rm, b, w, cols, j)
  {
    var r := EnvelopeSweep(tr, lm, rm, b, w, en, cols, nT);
    var rhs := EnvelopeRhs(rm, b, w, cols, j);
    assert Col(r, j) == tr.solve(lm, rhs);
  }

  /** `solve_envelope(lm, rm, n_t, b, w_c, e_n)`. */
  method SolveEnvelope(tr: Transforms, lm: Tridiag, rm: Tridiag, nT: nat,
                       b: array2<Complex>, wC: array2<Complex>, eN: array2<Complex>)
    requires SolveKeepsLength(tr) && WellFormed(rm) && Size(rm) == eN.Length0
    requires eN != b && eN != wC
    requires b.Length0 == eN.Length0 && wC.Length0 == eN.Length0
    requires b.Length1 == eN.Length1 && wC.Length1 == eN.Length1 && nT <= eN.Length1
    modifies eN
    ensures Snapshot(eN) == EnvelopeSweep(tr, lm, rm, Snapshot(b), Snapshot(wC), old(Snapshot(eN)), eN.Length1, nT)
  {
    var rows, cols := eN.Length0, eN.Length1;
    ghost var en0 := Snapshot(eN);
    var bb, ww := Snapshot(b), Snapshot(wC);
    var ll := 0;
    while ll < nT
      invariant ll <= nT
      invariant Snapshot(b) == bb && Snapshot(wC) == ww
      invariant forall p, q :: 0 <= p < rows && 0 <= q < cols ==>
        eN[p, q] == if q < ll then tr.solve(lm, EnvelopeRhs(rm, bb, ww, cols, q))[p] else en0[p][q]
    {
      var c := MatVec(rm, Column(b, ll));
      var d := AddVec(c, Column(wC, ll));
      assert d == EnvelopeRhs(rm, bb, ww, cols, ll);
      WriteColumn(eN, ll, tr.solve(lm, d));
      ll := ll + 1;
    }
    SameEntries(Snapshot(eN), EnvelopeSweep(tr, lm, rm, bb, ww, en0, cols, nT), rows, cols);
  }

  // ---------------------------------------------------------------------
  // DomainParameters

  /** The domain fields the run's integer quantities come from. */
  datatype Domain = Domain(iniRadi: real, finRadi: real, iRadiNodes: nat, nSteps: nat, distLimit: nat,
                           nTimeNodes: nat)

  /** The domain `DomainParameters.__init__` sets. */
  const WaterDomain: Domain := Domain(0.0, 0.0025, 1500, 1000, 5, 4096)

  /** `n_radi_nodes`: the inner nodes plus the two boundary nodes. */
  function NRadiNodes(d: Domain): nat { d.iRadiNodes + 2 }

  /** `dist_limitin`: propagation steps per snapshot block. */
  function DistLimitin(d: Domain): nat
    requires d.distLimit > 0
  {
    d.nSteps / d.distLimit
  }

  /** `peak_node`: the middle time node. */
  function PeakNode(d: Domain): nat { d.nTimeNodes / 2 }

  /** `radi_step_len`. */
  function RadiStepLen(d: Domain): real
  {
    (d.finRadi - d.iniRadi) / ((NRadiNodes(d) - 1) as real)
  }

  /** `axis_node = int(-ini_radi_coor / radi_step_len)`. */
  function AxisNode(d: Domain): int
    requires d.finRadi != d.iniRadi
  {
    Trunc(-d.iniRadi / RadiStepLen(d))
  }

  /** The blocks of the run cover at most the `n_steps` propagation steps. */
  lemma BlocksFitSteps(d: Domain)
    requires d.distLimit > 0
    ensures d.distLimit * DistLimitin(d) <= d.nSteps
    ensures d.nSteps % d.distLimit == 0 ==> d.distLimit * DistLimitin(d) == d.nSteps
  {
  }

  /** The water domain: 1502 radial nodes, axis node 0, peak node 2048, five blocks of 200 steps. */
  lemma WaterDomainFacts()
    ensures NRadiNodes(WaterDomain) == 1502
    ensures DistLimitin(WaterDomain) == 200 && WaterDomain.distLimit * DistLimitin(WaterDomain) == WaterDomain.nSteps
    ensures AxisNode(WaterDomain) == 0 && PeakNode(WaterDomain) == 2048
    ensures AxisNode(WaterDomain) < NRadiNodes(WaterDomain) && PeakNode(WaterDomain) < WaterDomain.nTimeNodes
  {
    assert -WaterDomain.iniRadi / RadiStepLen(WaterDomain) == 0.0;
  }

  // ---------------------------------------------------------------------
  // The step numbering of propagate

  /** `kk = (mm − 1)·dist_limitin + nn`: the step number of inner iteration `nn` of block `mm`. */
  function StepNumber(dli: nat, mm: nat, nn: nat): int
    requires mm >= 1
  {
    (mm - 1) * dli + nn
  }

  /** Every step number lies in `1 .. dist_limit·dist_limitin`. */
  lemma StepNumberInRange(dl: nat, dli: nat, mm: nat, nn: nat)
    requires 1 <= mm <= dl && 1 <= nn <= dli
    ensures 1 <= StepNumber(dli, mm, nn) <= dl * dli
  {
    assert (mm - 1) * dli <= (dl - 1) * dli by {
      MulMonotone(mm - 1, dl - 1, dli);
    }
  }

  lemma MulMonotone(x: nat, y: nat, k: nat)
    requires x <= y
    ensures x * k <= y * k
  {
  }

  /** Step numbers follow the loop order: one iteration comes before another iff its number is smaller. */
  lemma StepNumberOrder(dli: nat, m1: nat, n1: nat, m2: nat, n2: nat)
    requires m1 >= 1 && m2 >= 1 && 1 <= n1 <= dli && 1 <= n2 <= dli
    ensures StepNumber(dli, m1, n1) < StepNumber(dli, m2, n2) <==> m1 < m2 || (m1 == m2 && n1 < n2)
  {
    if m1 < m2 {
      MulMonotone(m1, m2 - 1, dli);
      assert (m1 - 1) * dli + dli == m1 * dli;
    } else if m2 < m1 {
      MulMonotone(m2, m1 - 1, dli);
      assert (m2 - 1) * dli + dli == m2 * dli;
    }
  }

  /** Every number in `1 .. dist_limit·dist_limitin` is the number of some iteration. */
  lemma StepNumberOnto(dl: nat, dli: nat, k: nat)
    requires 1 <= k <= dl * dli
    ensures var mm, nn := (k - 1) / dli + 1, (k - 1) % dli + 1;
      1 <= mm <= dl && 1 <= nn <= dli && StepNumber(dli, mm, nn) == k
  {
    var q, r := (k - 1) / dli, (k - 1) % dli;
    assert q * dli + r == k - 1;
    if q >= dl {
      MulMonotone(dl, q, dli);
    }
  }
}
