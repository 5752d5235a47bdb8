/**
 * The spectral Crank-Nicolson propagator of `ffd_2d1_scn.py`: linear
 * diffraction and dispersion of a pulse, solved frequency by frequency.
 * Each step transforms the envelope along time, rewrites the main diagonal
 * of the two sparse operators for every frequency and solves one radial
 * system per frequency, transforms back, swaps the two envelope buffers and
 * records the on-axis row.
 */
module FfdScn {
  import opened Numerics
  import opened Grid
  import opened Tridiagonal
  import Water

  // ---------------------------------------------------------------------
  // crank_nicolson_diags and crank_nicolson_array

  /**
   * `crank_nicolson_diags(nodes, position, c)`: the interior stencil on the
   * rows `1 .. nodes-2`, a trailing 0 on the lower diagonal, a leading
   * entry on the upper diagonal that both positions set to `-2c`, and a
   * main diagonal of ones. For fewer than two nodes the stencil is empty
   * and each off-diagonal holds just its boundary entry.
   */
  function CrankNicolsonDiags(nodes: nat, position: string, c: Complex): (t: Tridiag)
    ensures |t.main| == nodes && forall k :: 0 <= k < nodes ==> t.main[k] == One
    ensures |t.lower| == |t.upper| == if nodes >= 2 then nodes - 1 else 1
    ensures t.lower[|t.lower| - 1] == Zero && t.upper[0] == Scale(-2.0, c)
  {
    var inner := if nodes >= 2 then nodes - 2 else 0;
    var lower := seq(inner, k requires 0 <= k < inner => CnLower(c, k + 1)) + [Zero];
    var upper := [Zero] + seq(inner, k requires 0 <= k < inner => CnUpper(c, k + 1));
    Tridiag(lower, Full(nodes, One),
            upper[0 := if position == "LEFT" then Scale(-2.0, c) else Scale(-2.0, c)])
  }

  /** The two branches on `position` build the same diagonals. */
  lemma DiagsIgnorePosition(nodes: nat, p: string, q: string, c: Complex)
    ensures CrankNicolsonDiags(nodes, p, c) == CrankNicolsonDiags(nodes, q, c)
  {
  }

  /**
   * From two nodes on, the diagonals are the shared cylindrical stencil:
   * interior entries `-c(1 - 0.5/i)` below and `-c(1 + 0.5/i)` above the
   * main diagonal of row `i`, the doubled axis entry, the zero below the
   * last row.
   */
  lemma DiagsAreStencil(nodes: nat, position: string, c: Complex)
    requires nodes >= 2
    ensures CrankNicolsonDiags(nodes, position, c) == CnOperator(nodes, c, Full(nodes, One), Scale(-2.0, c))
  {
    var t := CrankNicolsonDiags(nodes, position, c);
    var u := CnOperator(nodes, c, Full(nodes, One), Scale(-2.0, c));
    assert t.lower == u.lower;
    assert t.upper == u.upper;
  }

  /** `crank_nicolson_array`: the diagonals at offsets -1, 0 and +1 of one sparse matrix. */
  function CrankNicolsonArray(nodes: nat, position: string, c: Complex): (t: Tridiag)
    requires nodes >= 2
    ensures WellFormed(t) && Size(t) == nodes
  {
    CrankNicolsonDiags(nodes, position, c)
  }

  // ---------------------------------------------------------------------
  // The per-frequency rewrite of the main diagonal

  /**
   * `setdiag(v)` followed by `data[-1] = last`: every main entry becomes
   * `v`, then the bottom-right one `last`; the off-diagonals stay. The
   * last stored element of the sparse matrix is the bottom-right entry
   * because the zero below it is not stored.
   */
  function SetMain(t: Tridiag, v: Complex, last: Complex): (r: Tridiag)
    requires |t.main| >= 1
    ensures r.lower == t.lower && r.upper == t.upper && |r.main| == |t.main|
    ensures forall k :: 0 <= k < |t.main| - 1 ==> r.main[k] == v
    ensures r.main[|t.main| - 1] == last
  {
    t.(main := Full(|t.main|, v)[|t.main| - 1 := last])
  }

  /** The rewrite forgets the old main diagonal: only the off-diagonals and the size matter. */
  lemma SetMainForgetsMain(t: Tridiag, u: Tridiag, v: Complex, last: Complex)
    requires |t.main| >= 1 && t.lower == u.lower && t.upper == u.upper && |t.main| == |u.main|
    ensures SetMain(t, v, last) == SetMain(u, v, last)
  {
  }

  /** The operator left behind after the rewrites for the first `count` frequencies. */
  function Retuned(t: Tridiag, vs: seq<Complex>, last: Complex, count: nat): (r: Tridiag)
    requires |t.main| >= 1 && count <= |vs|
    ensures r.lower == t.lower && r.upper == t.upper && |r.main| == |t.main|
    ensures count > 0 ==> r == SetMain(t, vs[count - 1], last)
  {
    if count == 0 then t else SetMain(t, vs[count - 1], last)
  }

  // ---------------------------------------------------------------------
  // Parameters and the main-diagonal coefficients

  /**
   * The grid of the script: `n_r` radial nodes, `n_t` time nodes, `n_steps`
   * propagation steps, the on-axis node, `DELTA_R = 0.25·dz/(k·dr²)`,
   * `DELTA_T = 0.25·dz·k''` and the angular frequencies in FFT order.
   */
  datatype Params = Params(nR: nat, nT: nat, nSteps: nat, axisNode: nat,
                           deltaR: real, deltaT: real, frq: seq<real>)

  predicate ParamsOk(p: Params)
  {
    p.nR >= 2 && p.axisNode < p.nR && |p.frq| == p.nT
  }

  /** `MATRIX_CNT_1 = i·DELTA_R`. */
  function MatrixCnt1(p: Params): Complex { Scale(p.deltaR, I) }

  /** `fourier_coeff[l] = i·DELTA_T·ω_l²`. */
  function FourierCoeff(p: Params, l: nat): Complex
    requires l < |p.frq|
  {
    Scale(p.deltaT * p.frq[l] * p.frq[l], I)
  }

  /** `matrix_cnt_3[l] = 1 + 2·MATRIX_CNT_1 - fourier_coeff[l]`, the left main entries. */
  function LeftElement(p: Params, l: nat): Complex
    requires l < |p.frq|
  {
    Sub(Add(One, Scale(2.0, MatrixCnt1(p))), FourierCoeff(p, l))
  }

  /** `matrix_cnt_2[l] = 1 - 2·MATRIX_CNT_1 + fourier_coeff[l]`, the right main entries. */
  function RightElement(p: Params, l: nat): Complex
    requires l < |p.frq|
  {
    Add(Sub(One, Scale(2.0, MatrixCnt1(p))), FourierCoeff(p, l))
  }

  /**
   * The left main entry is `1 + i(2δr - δt·ω²)`, the right one its mirror
   * `1 - i(2δr - δt·ω²)`: both have real part 1 and they add up to 2.
   */
  lemma MainEntries(p: Params, l: nat)
    requires l < |p.frq|
    ensures LeftElement(p, l) == Complex(1.0, 2.0 * p.deltaR - p.deltaT * p.frq[l] * p.frq[l])
    ensures RightElement(p, l) == Complex(1.0, p.deltaT * p.frq[l] * p.frq[l] - 2.0 * p.deltaR)
    ensures Add(LeftElement(p, l), RightElement(p, l)) == Of(2.0)
  {
  }

  function LeftElements(p: Params): (vs: seq<Complex>)
    requires ParamsOk(p)
    ensures |vs| == p.nT && forall l :: 0 <= l < p.nT ==> vs[l] == LeftElement(p, l)
  {
    seq(p.nT, l requires 0 <= l < p.nT => LeftElement(p, l))
  }

  function RightElements(p: Params): (vs: seq<Complex>)
    requires ParamsOk(p)
    ensures |vs| == p.nT && forall l :: 0 <= l < p.nT ==> vs[l] == RightElement(p, l)
  {
    seq(p.nT, l requires 0 <= l < p.nT => RightElement(p, l))
  }

  /** `left_operator`, built with `+MATRIX_CNT_1`. */
  function InitialLeft(p: Params): (t: Tridiag)
    requires ParamsOk(p)
    ensures WellFormed(t) && Size(t) == p.nR
  {
    CrankNicolsonArray(p.nR, "LEFT", MatrixCnt1(p))
  }

  /** `right_operator`, built with `-MATRIX_CNT_1`. */
  function InitialRight(p: Params): (t: Tridiag)
    requires ParamsOk(p)
    ensures WellFormed(t) && Size(t) == p.nR
  {
    CrankNicolsonArray(p.nR, "RIGHT", Neg(MatrixCnt1(p)))
  }

  /** The left operator of frequency `l`: main entries `matrix_cnt_3[l]`, bottom-right 1. */
  function LeftAt(p: Params, l: nat): (t: Tridiag)
    requires ParamsOk(p) && l < p.nT
    ensures WellFormed(t) && Size(t) == p.nR
  {
    SetMain(InitialLeft(p), LeftElement(p, l), One)
  }

  /** The right operator of frequency `l`: main entries `matrix_cnt_2[l]`, bottom-right 0. */
  function RightAt(p: Params, l: nat): (t: Tridiag)
    requires ParamsOk(p) && l < p.nT
    ensures WellFormed(t) && Size(t) == p.nR
  {
    SetMain(InitialRight(p), RightElement(p, l), Zero)
  }

  /**
   * At zero frequency the operators are those of the water propagator:
   * the "left" matrix with coefficient `i·δr` and the "right" one with
   * `-i·δr`, whose last row is zero.
   */
  lemma ZeroFrequencyIsWaterOperator(p: Params, l: nat)
    requires ParamsOk(p) && l < p.nT && p.frq[l] == 0.0
    ensures LeftAt(p, l) == Water.CrankNicolsonMatrix(p.nR, "left", MatrixCnt1(p))
    ensures RightAt(p, l) == Water.CrankNicolsonMatrix(p.nR, "right", Neg(MatrixCnt1(p)))
    ensures ZeroRow(RightAt(p, l), p.nR - 1) && IdentityRow(LeftAt(p, l), p.nR - 1)
  {
    var m := MatrixCnt1(p);
    var n := p.nR;
    DiagsAreStencil(n, "LEFT", m);
    DiagsAreStencil(n, "RIGHT", Neg(m));
    assert LeftElement(p, l) == Add(One, Scale(2.0, m));
    assert RightElement(p, l) == Add(One, Scale(2.0, Neg(m)));
    assert LeftAt(p, l).main == (Full(n, Add(One, Scale(2.0, m)))[n - 1 := One]);
    assert RightAt(p, l).main == (Full(n, Add(One, Scale(2.0, Neg(m))))[n - 1 := Zero]);
    Water.CrankNicolsonMatrixRows(n, "left", m);
    Water.CrankNicolsonMatrixRows(n, "right", Neg(m));
  }

  // ---------------------------------------------------------------------
  // One sparse operator, rewritten in place

  /** A sparse tridiagonal matrix whose stored entries the step rewrites. */
  class SparseOperator {
    var diags: Tridiag

    constructor (t: Tridiag)
      ensures diags == t
    {
      diags := t;
    }

    /** `setdiag(v)`: every main-diagonal entry becomes `v`. */
    method SetDiag(v: Complex)
      modifies this
      ensures diags == old(diags).(main := Full(|old(diags).main|, v))
    {
      diags := diags.(main := Full(|diags.main|, v));
    }

    /** `data[-1] = v`: the last stored element, the bottom-right entry. */
    method SetLastStored(v: Complex)
      requires |diags.main| >= 1
      modifies this
      ensures diags == old(diags).(main := old(diags).main[|old(diags).main| - 1 := v])
    {
      diags := diags.(main := diags.main[|diags.main| - 1 := v]);
    }
  }

  // ---------------------------------------------------------------------
  // fft_algorithm, crank_nicolson_step, ifft_algorithm

  /** `fft_algorithm(current, fourier)`: `fourier[:] = fft(current, axis=1)`. */
  method FftAlgorithm(tr: Water.Transforms, current: array2<Complex>, fourier: array2<Complex>)
    requires current != fourier
    requires fourier.Length0 == current.Length0 && fourier.Length1 == current.Length1
    modifies fourier
    ensures Snapshot(fourier) == Water.Transformed(tr.fft, Snapshot(current))
  {
    var d := Water.Transformed(tr.fft, Snapshot(current));
    WriteRows(fourier, fourier.Length0, (i: nat, j: nat) => if i < |d| && j < |d[i]| then d[i][j] else Zero);
    SameEntries(Snapshot(fourier), d, fourier.Length0, fourier.Length1);
  }

  /** `ifft_algorithm(fourier, current)`: `current[:] = ifft(fourier, axis=1)`. */
  method IfftAlgorithm(tr: Water.Transforms, fourier: array2<Complex>, current: array2<Complex>)
    requires current != fourier
    requires fourier.Length0 == current.Length0 && fourier.Length1 == current.Length1
    modifies current
    ensures Snapshot(current) == Water.Transformed(tr.ifft, Snapshot(fourier))
  {
    var d := Water.Transformed(tr.ifft, Snapshot(fourier));
    WriteRows(current, current.Length0, (i: nat, j: nat) => if i < |d| && j < |d[i]| then d[i][j] else Zero);
    SameEntries(Snapshot(current), d, current.Length0, current.Length1);
  }

  /**
   * The next Fourier envelope: column `l` solves the left operator of
   * frequency `l` against the right operator of frequency `l` applied to
   * column `l` of `f`.
   */
  function FrequencyColumns(tr: Water.Transforms, lt: Tridiag, rt: Tridiag, le: seq<Complex>, re: seq<Complex>,
                            f: Mat<Complex>, rows: nat, cols: nat): (x: Mat<Complex>)
    requires Water.SolveKeepsLength(tr)
    requires WellFormed(lt) && WellFormed(rt) && Size(lt) == rows && Size(rt) == rows
    requires IsMat(f, rows, cols) && cols <= |le| && cols <= |re|
    ensures IsMat(x, rows, cols)
    ensures forall l :: 0 <= l < cols ==> Col(x, l) == FrequencyColumn(tr, lt, rt, le, re, f, rows, cols, l)
  {
    var x := seq(rows, i requires 0 <= i < rows => seq(cols, l requires 0 <= l < cols =>
      FrequencyColumn(tr, lt, rt, le, re, f, rows, cols, l)[i]));
    assert forall l :: 0 <= l < cols ==> Col(x, l) == FrequencyColumn(tr, lt, rt, le, re, f, rows, cols, l);
    x
  }

  /** Column `l` of the step: the solve of `L_l` against `R_l·f[:, l]`. */
  function FrequencyColumn(tr: Water.Transforms, lt: Tridiag, rt: Tridiag, le: seq<Complex>, re: seq<Complex>,
                           f: Mat<Complex>, rows: nat, cols: nat, l: nat): (x: seq<Complex>)
    requires Water.SolveKeepsLength(tr)
    requires WellFormed(lt) && WellFormed(rt) && Size(lt) == rows && Size(rt) == rows
    requires IsMat(f, rows, cols) && cols <= |le| && cols <= |re| && l < cols
    ensures |x| == rows
  {
    tr.solve(SetMain(lt, le[l], One), MatVec(SetMain(rt, re[l], Zero), Col(f, l)))
  }

  /** With an exact solve, column `l` satisfies `L_l·x = R_l·f[:, l]`. */
  lemma FrequencyColumnsSolve(tr: Water.Transforms, lt: Tridiag, rt: Tridiag, le: seq<Complex>, re: seq<Complex>,
                              f: Mat<Complex>, rows: nat, cols: nat, l: nat)
    requires Water.SolveKeepsLength(tr)
    requires WellFormed(lt) && WellFormed(rt) && Size(lt) == rows && Size(rt) == rows
    requires IsMat(f, rows, cols) && cols <= |le| && cols <= |re| && l < cols
    requires Solves(tr.solve, SetMain(lt, le[l], One))
    ensures MatVec(SetMain(lt, le[l], One), FrequencyColumn(tr, lt, rt, le, re, f, rows, cols, l))
         == MatVec(SetMain(rt, re[l], Zero), Col(f, l))
  {
  }

  /**
   * `crank_nicolson_step(operators, arrays, coeffs)`: for every frequency
   * column `l` of `current`, rewrite both main diagonals, force the
   * boundary entries 1 and 0, and write the solve into column `l` of
   * `next`. The operators keep the rewrite of the last frequency.
   */
  method CrankNicolsonStep(tr: Water.Transforms, left: SparseOperator, right: SparseOperator,
                           le: seq<Complex>, re: seq<Complex>, current: array2<Complex>, next: array2<Complex>)
    requires Water.SolveKeepsLength(tr) && left != right && current != next
    requires WellFormed(left.diags) && Size(left.diags) == current.Length0
    requires WellFormed(right.diags) && Size(right.diags) == current.Length0
    requires next.Length0 == current.Length0 && next.Length1 == current.Length1
    requires current.Length1 <= |le| && current.Length1 <= |re|
    modifies left, right, next
    ensures left.diags == Retuned(old(left.diags), le, One, current.Length1)
    ensures right.diags == Retuned(old(right.diags), re, Zero, current.Length1)
    ensures Snapshot(next) == FrequencyColumns(tr, old(left.diags), old(right.diags), le, re,
                                               Snapshot(current), current.Length0, current.Length1)
  {
    var rows, cols := current.Length0, current.Length1;
    ghost var lt, rt := left.diags, right.diags;
    ghost var f := Snapshot(current);
    var l := 0;
    while l < cols
      invariant l <= cols
      invariant Snapshot(current) == f
      invariant left.diags == Retuned(lt, le, One, l) && right.diags == Retuned(rt, re, Zero, l)
      invariant forall p, q :: 0 <= p < rows && 0 <= q < cols ==>
        next[p, q] == if q < l then FrequencyColumns(tr, lt, rt, le, re, f, rows, cols)[p][q] else old(next[p, q])
    {
      left.SetDiag(le[l]);
      right.SetDiag(re[l]);
      left.SetLastStored(One);
      right.SetLastStored(Zero);
      assert left.diags == SetMain(lt, le[l], One);
      assert right.diags == SetMain(rt, re[l], Zero);
      var inter := MatVec(right.diags, Column(current, l));
      assert Column(current, l) == Col(f, l);
      WriteColumn(next, l, tr.solve(left.diags, inter));
      l := l + 1;
    }
    SameEntries(Snapshot(next), FrequencyColumns(tr, lt, rt, le, re, f, rows, cols), rows, cols);
  }

  // ---------------------------------------------------------------------
  // The propagation loop

  /** The values held by the script's buffers and sparse operators. */
  datatype ScnState = ScnState(current: Mat<Complex>, next: Mat<Complex>, fourier: Mat<Complex>,
                               c: Mat<Complex>, axis: Mat<Complex>, left: Tridiag, right: Tridiag)

  predicate Shaped(s: ScnState, p: Params)
  {
    && IsMat(s.current, p.nR, p.nT) && IsMat(s.next, p.nR, p.nT)
    && IsMat(s.fourier, p.nR, p.nT) && IsMat(s.c, p.nR, p.nT)
    && IsMat(s.axis, p.nSteps + 1, p.nT)
    && WellFormed(s.left) && Size(s.left) == p.nR && WellFormed(s.right) && Size(s.right) == p.nR
  }

  /**
   * Iteration `k` of the loop: transform, solve every frequency, transform
   * back into the other buffer, swap the two buffers and store the new
   * on-axis row at `envelope_axis[k + 1]`.
   */
  function Iteration(s: ScnState, p: Params, tr: Water.Transforms, k: nat): (r: ScnState)
    requires ParamsOk(p) && Shaped(s, p) && Water.SolveKeepsLength(tr) && k < p.nSteps
    ensures Shaped(r, p)
  {
    var f := Water.Transformed(tr.fft, s.current);
    var c := FrequencyColumns(tr, s.left, s.right, LeftElements(p), RightElements(p), f, p.nR, p.nT);
    var e := Water.Transformed(tr.ifft, c);
    ScnState(e, s.current, f, c, s.axis[k + 1 := e[p.axisNode]],
             Retuned(s.left, LeftElements(p), One, p.nT), Retuned(s.right, RightElements(p), Zero, p.nT))
  }

  /** Iteration `k` stores the new on-axis row and keeps the off-diagonals of both operators. */
  lemma IterationRecords(s: ScnState, p: Params, tr: Water.Transforms, k: nat)
    requires ParamsOk(p) && Shaped(s, p) && Water.SolveKeepsLength(tr) && k < p.nSteps
    ensures var r := Iteration(s, p, tr, k);
      && r.axis == s.axis[k + 1 := r.current[p.axisNode]]
      && r.left.lower == s.left.lower && r.left.upper == s.left.upper
      && r.right.lower == s.right.lower && r.right.upper == s.right.upper
  {
  }

  /** An iteration of the loop as a function of the state and the iteration index. */
  type StepFn = (ScnState, nat) -> ScnState

  /**
   * A marker that lets the link between a step function and `Iteration`
   * be used only where a proof names the state and index it needs.
   */
  ghost predicate Applied(s: ScnState, k: nat) { true }

  /** `step` is iteration `k` of the loop on every well-shaped state. */
  ghost predicate Models(step: StepFn, p: Params, tr: Water.Transforms)
  {
    forall s: ScnState, k: nat {:trigger Applied(s, k)} ::
      ParamsOk(p) && Shaped(s, p) && Water.SolveKeepsLength(tr) && k < p.nSteps ==>
        step(s, k) == Iteration(s, p, tr, k)
  }

  /** Such a step function exists. */
  ghost function Stepper(p: Params, tr: Water.Transforms): (step: StepFn)
    ensures Models(step, p, tr)
  {
    (s: ScnState, k: nat) =>
      if ParamsOk(p) && Shaped(s, p) && Water.SolveKeepsLength(tr) && k < p.nSteps then Iteration(s, p, tr, k) else s
  }

  /** The state after the first `k` iterations. */
  function Run(s: ScnState, step: StepFn, k: nat): ScnState
  {
    if k == 0 then s else step(Run(s, step, k - 1), k - 1)
  }

  /**
   * A step keeps the shapes, stores the on-axis row of the new envelope
   * at row `k + 1` and keeps the off-diagonals of both operators.
   */
  ghost predicate Records(step: StepFn, p: Params)
    requires ParamsOk(p)
  {
    forall s: ScnState, k: nat :: Shaped(s, p) && k < p.nSteps ==>
      && Shaped(step(s, k), p)
      && step(s, k).axis == s.axis[k + 1 := step(s, k).current[p.axisNode]]
      && step(s, k).left.lower == s.left.lower && step(s, k).left.upper == s.left.upper
      && step(s, k).right.lower == s.right.lower && step(s, k).right.upper == s.right.upper
  }

  lemma ModelRecords(step: StepFn, p: Params, tr: Water.Transforms)
    requires ParamsOk(p) && Water.SolveKeepsLength(tr) && Models(step, p, tr)
    ensures Records(step, p)
  {
    forall s: ScnState, k: nat | Shaped(s, p) && k < p.nSteps
      ensures && Shaped(step(s, k), p)
              && step(s, k).axis == s.axis[k + 1 := step(s, k).current[p.axisNode]]
              && step(s, k).left.lower == s.left.lower && step(s, k).left.upper == s.left.upper
              && step(s, k).right.lower == s.right.lower && step(s, k).right.upper == s.right.upper
    {
      assert Applied(s, k);
      IterationRecords(s, p, tr, k);
    }
  }

  /**
   * After `k` iterations, row 0 of `envelope_axis` is untouched, row `j`
   * for `1 <= j <= k` is the on-axis row of the envelope after `j`
   * iterations, and the rows after `k` are untouched.
   */
  lemma {:induction false} AxisHistory(s: ScnState, p: Params, step: StepFn, k: nat)
    requires ParamsOk(p) && Records(step, p) && Shaped(s, p) && k <= p.nSteps
    ensures Shaped(Run(s, step, k), p)
    ensures Run(s, step, k).axis[0] == s.axis[0]
    ensures forall j :: 1 <= j <= k ==>
      Shaped(Run(s, step, j), p) && Run(s, step, k).axis[j] == Run(s, step, j).current[p.axisNode]
    ensures forall j :: k < j <= p.nSteps ==> Run(s, step, k).axis[j] == s.axis[j]
  {
    if k > 0 {
      AxisHistory(s, p, step, k - 1);
    }
  }

  /**
   * The rewrites never touch the off-diagonals, so every iteration solves
   * each frequency with the same pair of operators: those of the initial
   * matrices with the main diagonal of that frequency.
   */
  lemma {:induction false} SameOperatorsEveryStep(s: ScnState, p: Params, step: StepFn, k: nat)
    requires ParamsOk(p) && Records(step, p) && Shaped(s, p) && k <= p.nSteps
    ensures Shaped(Run(s, step, k), p)
    ensures Run(s, step, k).left.lower == s.left.lower && Run(s, step, k).left.upper == s.left.upper
    ensures Run(s, step, k).right.lower == s.right.lower && Run(s, step, k).right.upper == s.right.upper
    ensures forall l :: 0 <= l < p.nT ==>
      SetMain(Run(s, step, k).left, LeftElement(p, l), One) == SetMain(s.left, LeftElement(p, l), One)
    ensures forall l :: 0 <= l < p.nT ==>
      SetMain(Run(s, step, k).right, RightElement(p, l), Zero) == SetMain(s.right, RightElement(p, l), Zero)
  {
    if k > 0 {
      SameOperatorsEveryStep(s, p, step, k - 1);
    }
    var r := Run(s, step, k);
    forall l | 0 <= l < p.nT
      ensures SetMain(r.left, LeftElement(p, l), One) == SetMain(s.left, LeftElement(p, l), One)
      ensures SetMain(r.right, RightElement(p, l), Zero) == SetMain(s.right, RightElement(p, l), Zero)
    {
      SetMainForgetsMain(r.left, s.left, LeftElement(p, l), One);
      SetMainForgetsMain(r.right, s.right, RightElement(p, l), Zero);
    }
  }

  /**
   * The script's state: the parameters, the two sparse operators, the two
   * envelope buffers it swaps, the Fourier buffer, the solve buffer
   * `c_array` and the on-axis record.
   */
  class ScnSolver {
    const p: Params
    const leftOp: SparseOperator
    const rightOp: SparseOperator
    var current: array2<Complex>
    var next: array2<Complex>
    const fourier: array2<Complex>
    const cArray: array2<Complex>
    const axis: array2<Complex>

    ghost predicate Valid()
      reads this, leftOp, rightOp
    {
      && ParamsOk(p)
      && current.Length0 == p.nR && current.Length1 == p.nT
      && next.Length0 == p.nR && next.Length1 == p.nT
      && fourier.Length0 == p.nR && fourier.Length1 == p.nT
      && cArray.Length0 == p.nR && cArray.Length1 == p.nT
      && axis.Length0 == p.nSteps + 1 && axis.Length1 == p.nT
      && WellFormed(leftOp.diags) && Size(leftOp.diags) == p.nR
      && WellFormed(rightOp.diags) && Size(rightOp.diags) == p.nR
      && leftOp != rightOp
      && current != next && current != fourier && current != cArray && current != axis
      && next != fourier && next != cArray && next != axis
      && fourier != cArray && fourier != axis && cArray != axis
    }

    function State(): (s: ScnState)
      reads this, leftOp, rightOp, current, next, fourier, cArray, axis
      requires Valid()
      ensures Shaped(s, p)
    {
      ScnState(Snapshot(current), Snapshot(next), Snapshot(fourier), Snapshot(cArray), Snapshot(axis),
               leftOp.diags, rightOp.diags)
    }

    /**
     * The set-up of the script for an initial envelope `init`: both
     * operators, fresh buffers with unspecified contents (`np.empty`), the
     * initial envelope in `envelope_current` and its on-axis row in row 0
     * of `envelope_axis`.
     */
    constructor (params: Params, init: Mat<Complex>)
      requires ParamsOk(params) && IsMat(init, params.nR, params.nT)
      ensures Valid() && p == params
      ensures State().current == init && State().axis[0] == init[params.axisNode]
      ensures State().left == InitialLeft(params) && State().right == InitialRight(params)
      ensures fresh(leftOp) && fresh(rightOp) && fresh(current) && fresh(next)
      ensures fresh(fourier) && fresh(cArray) && fresh(axis)
    {
      var e := FromMat(init, params.nR, params.nT);
      var ax := new Complex[params.nSteps + 1, params.nT];
      p := params;
      leftOp := new SparseOperator(InitialLeft(params));
      rightOp := new SparseOperator(InitialRight(params));
      current := e;
      next := new Complex[params.nR, params.nT];
      fourier := new Complex[params.nR, params.nT];
      cArray := new Complex[params.nR, params.nT];
      axis := ax;
      WriteRow(ax, 0, init[params.axisNode]);
    }

    /** One pass of the propagation loop, iteration `k`. */
    method Iterate(tr: Water.Transforms, k: nat)
      requires Valid() && Water.SolveKeepsLength(tr) && k < p.nSteps
      modifies this, leftOp, rightOp, next, fourier, cArray, axis
      ensures Valid()
      ensures current == old(next) && next == old(current)
      ensures State() == Iteration(old(State()), p, tr, k)
    {
      ghost var s0 := State();
      FftAlgorithm(tr, current, fourier);
      CrankNicolsonStep(tr, leftOp, rightOp, LeftElements(p), RightElements(p), fourier, cArray);
      IfftAlgorithm(tr, cArray, next);
      current, next := next, current;
      WriteRow(axis, k + 1, Row(current, p.axisNode));
      assert Row(current, p.axisNode) == Snapshot(current)[p.axisNode];
      assert State() == Iteration(s0, p, tr, k);
    }

    /** The loop `for k in range(N_STEPS)`, for a step function pinned to `Iteration`. */
    method Propagate(tr: Water.Transforms, ghost step: StepFn)
      requires Valid() && Water.SolveKeepsLength(tr) && Models(step, p, tr)
      modifies this, leftOp, rightOp, current, next, fourier, cArray, axis
      ensures Valid()
      ensures State() == Run(old(State()), step, p.nSteps)
    {
      ghost var s0 := State();
      ghost var e0, e1 := current, next;
      var k := 0;
      while k < p.nSteps
        invariant k <= p.nSteps && Valid()
        invariant (current == e0 && next == e1) || (current == e1 && next == e0)
        invariant State() == Run(s0, step, k)
      {
        ghost var sk := State();
        Iterate(tr, k);
        assert Applied(sk, k);
        k := k + 1;
      }
    }
  }
}
