/**
 * The alternating-direction propagator of `ffdmk_2d1_adi2.py`: a radial
 * and a temporal Crank-Nicolson operator with their boundary rows, and a
 * loop of two half-steps per propagation step. Each half-step multiplies
 * by the right operator of one direction, adds a two-slot Adams-Bashforth
 * combination of the Kerr and multiphoton terms, and solves with the left
 * operator of the other direction.
 */
module Adi {
  import opened Numerics
  import opened Grid
  import opened Tridiagonal
  import Water

  // ---------------------------------------------------------------------
  // crank_nicolson_diagonals_r / _t and the array builders

  /** The radial stencil factor `1 ∓ 0.5·cs/i` of row `i`. */
  function RadialFactor(cs: int, i: nat, sign: real): real
    requires i >= 1
  {
    1.0 + sign * 0.5 * (cs as real) / (i as real)
  }

  /**
   * `crank_nicolson_diagonals_r(nodes, off, main, cs)`: `off·(1 - 0.5·cs/i)`
   * below and `off·(1 + 0.5·cs/i)` above the rows `1 .. nodes-2`, a
   * trailing 0 below, a leading 0 above, and `main` on the diagonal.
   */
  function DiagonalsR(nodes: nat, off: Complex, main: Complex, cs: int): (t: Tridiag)
    ensures |t.main| == nodes && |t.lower| == |t.upper| == if nodes >= 2 then nodes - 1 else 1
  {
    var inner := if nodes >= 2 then nodes - 2 else 0;
    Tridiag(seq(inner, k requires 0 <= k < inner => Scale(RadialFactor(cs, k + 1, -1.0), off)) + [Zero],
            Full(nodes, main),
            [Zero] + seq(inner, k requires 0 <= k < inner => Scale(RadialFactor(cs, k + 1, 1.0), off)))
  }

  /** In planar geometry (`cs = 0`) both off-diagonals are constant away from their boundary zeros. */
  lemma PlanarDiagonalsConstant(nodes: nat, off: Complex, main: Complex)
    requires nodes >= 2
    ensures var t := DiagonalsR(nodes, off, main, 0);
      && (forall k :: 0 <= k < nodes - 2 ==> t.lower[k] == off)
      && (forall k :: 1 <= k < nodes - 1 ==> t.upper[k] == off)
      && t.lower[nodes - 2] == Zero && t.upper[0] == Zero
  {
  }

  /**
   * In cylindrical geometry (`cs = 1`) with `off = -c` the off-diagonals
   * are the shared cylindrical stencil of coefficient `c`, with 0 as the
   * axis entry.
   */
  lemma CylindricalDiagonalsAreStencil(nodes: nat, c: Complex, main: Complex)
    requires nodes >= 2
    ensures DiagonalsR(nodes, Neg(c), main, 1) == CnOperator(nodes, c, Full(nodes, main), Zero)
  {
    var t := DiagonalsR(nodes, Neg(c), main, 1);
    var u := CnOperator(nodes, c, Full(nodes, main), Zero);
    forall k | 0 <= k < nodes - 1
      ensures t.lower[k] == u.lower[k]
    {
      if k < nodes - 2 {
        CylindricalFactor(c, k + 1, -1.0);
      }
    }
    forall k | 0 <= k < nodes - 1
      ensures t.upper[k] == u.upper[k]
    {
      if k >= 1 {
        CylindricalFactor(c, k, 1.0);
      }
    }
  }

  /** `-c·(1 ∓ 0.5/i)` is `(-c)·(1 ∓ 0.5·cs/i)` for `cs = 1`. */
  lemma CylindricalFactor(c: Complex, i: nat, sign: real)
    requires i >= 1
    ensures Scale(RadialFactor(1, i, sign), Neg(c)) == Scale(-(1.0 + sign * 0.5 / (i as real)), c)
  {
    assert RadialFactor(1, i, sign) == 1.0 + sign * 0.5 / (i as real);
  }

  /** `crank_nicolson_diagonals_t(nodes, off, main)`: constant diagonals. */
  function DiagonalsT(nodes: nat, off: Complex, main: Complex): (t: Tridiag)
    requires nodes >= 1
    ensures WellFormed(t) && Size(t) == nodes
    ensures forall k :: 0 <= k < nodes - 1 ==> t.lower[k] == off && t.upper[k] == off
    ensures forall k :: 0 <= k < nodes ==> t.main[k] == main
  {
    Tridiag(Full(nodes - 1, off), Full(nodes, main), Full(nodes - 1, off))
  }

  /** `crank_nicolson_array_r`: the radial diagonals as one sparse matrix. */
  function ArrayR(nodes: nat, off: Complex, main: Complex, cs: int): (t: Tridiag)
    requires nodes >= 2
    ensures WellFormed(t) && Size(t) == nodes
  {
    DiagonalsR(nodes, off, main, cs)
  }

  /**
   * The boundary edits of the script on a tridiagonal matrix: `A[0, 0]`,
   * `A[0, 1]` and `A[-1, -1]` take the given values, every other entry stays.
   */
  function EdgeRows(t: Tridiag, a00: Complex, a01: Complex, aLast: Complex): (r: Tridiag)
    requires WellFormed(t) && Size(t) >= 2
    ensures WellFormed(r) && Size(r) == Size(t)
    ensures Entry(r, 0, 0) == a00 && Entry(r, 0, 1) == a01 && Entry(r, Size(t) - 1, Size(t) - 1) == aLast
    ensures forall i, j ::
      (0 <= i < Size(t) && 0 <= j < Size(t) && !(i == 0 && j <= 1) && !(i == Size(t) - 1 && j == Size(t) - 1))
      ==> Entry(r, i, j) == Entry(t, i, j)
  {
    var n := Size(t);
    t.(main := t.main[0 := a00][n - 1 := aLast], upper := t.upper[0 := a01])
  }

  // ---------------------------------------------------------------------
  // The parameters and the four operators

  /**
   * The grid and medium of the script: `n_r` radial and `n_t` time nodes,
   * `n_steps` steps, the on-axis node, `EU_CYL` (0 planar, any other value
   * cylindrical), `DELTA_R`, `DELTA_T`, the step `dz`, `KERR_COEFF`,
   * `MPA_COEFF` and the photon number `K` (`MPA_EXPONENT = 2K - 2`).
   */
  datatype Params = Params(nR: nat, nT: nat, nSteps: nat, axisNode: nat, cs: int,
                           deltaR: real, deltaT: real, dz: real, kerr: Complex, mpa: real, photons: nat)

  predicate ParamsOk(p: Params)
  {
    p.nR >= 2 && p.nT >= 2 && p.axisNode < p.nR && p.photons >= 1
  }

  /** `MATRIX_CNT_1R = i·DELTA_R`. */
  function Mr(p: Params): Complex { Scale(p.deltaR, I) }

  /** `MATRIX_CNT_1T = i·DELTA_T`. */
  function Mt(p: Params): Complex { Scale(p.deltaT, I) }

  /** The radial pair after its boundary edits: Dirichlet rows for `EU_CYL == 0`, Neumann-Dirichlet otherwise. */
  function RadialOperators(p: Params): (lr: (Tridiag, Tridiag))
    requires ParamsOk(p)
    ensures WellFormed(lr.0) && Size(lr.0) == p.nR && WellFormed(lr.1) && Size(lr.1) == p.nR
  {
    var m := Mr(p);
    var l := ArrayR(p.nR, Neg(m), Add(One, Scale(2.0, m)), p.cs);
    var r := ArrayR(p.nR, m, Sub(One, Scale(2.0, m)), p.cs);
    if p.cs == 0 then (EdgeRows(l, One, Zero, One), EdgeRows(r, Zero, Zero, Zero))
    else (EdgeRows(l, Add(One, Scale(2.0, m)), Scale(-2.0, m), One),
          EdgeRows(r, Sub(One, Scale(2.0, m)), Scale(2.0, m), Zero))
  }

  /** The temporal pair after its boundary edits. */
  function TemporalOperators(p: Params): (lr: (Tridiag, Tridiag))
    requires ParamsOk(p)
    ensures WellFormed(lr.0) && Size(lr.0) == p.nT && WellFormed(lr.1) && Size(lr.1) == p.nT
  {
    var m := Mt(p);
    (EdgeRows(DiagonalsT(p.nT, Neg(m), Add(One, Scale(2.0, m))), One, Zero, One),
     EdgeRows(DiagonalsT(p.nT, m, Sub(One, Scale(2.0, m))), Zero, Zero, Zero))
  }

  function LeftR(p: Params): (t: Tridiag)
    requires ParamsOk(p)
    ensures WellFormed(t) && Size(t) == p.nR
  {
    RadialOperators(p).0
  }

  function RightR(p: Params): (t: Tridiag)
    requires ParamsOk(p)
    ensures WellFormed(t) && Size(t) == p.nR
  {
    RadialOperators(p).1
  }

  function LeftT(p: Params): (t: Tridiag)
    requires ParamsOk(p)
    ensures WellFormed(t) && Size(t) == p.nT
  {
    TemporalOperators(p).0
  }

  function RightT(p: Params): (t: Tridiag)
    requires ParamsOk(p)
    ensures WellFormed(t) && Size(t) == p.nT
  {
    TemporalOperators(p).1
  }

  /**
   * Planar geometry: the first and last rows of the left radial matrix are
   * identity rows and those of the right one are zero.
   */
  lemma PlanarBoundaryRows(p: Params)
    requires ParamsOk(p) && p.cs == 0
    ensures IdentityRow(LeftR(p), 0) && ZeroRow(RightR(p), 0)
    ensures IdentityRow(LeftR(p), p.nR - 1) && ZeroRow(RightR(p), p.nR - 1)
  {
    var n := p.nR;
    var m := Mr(p);
    var l := ArrayR(n, Neg(m), Add(One, Scale(2.0, m)), 0);
    var r := ArrayR(n, m, Sub(One, Scale(2.0, m)), 0);
    assert l.lower[n - 2] == Zero && r.lower[n - 2] == Zero;
  }

  /**
   * Cylindrical geometry: row 0 of the left matrix is `(1 + 2M, -2M)` and of
   * the right one `(1 - 2M, 2M)`; the last rows are identity and zero; and
   * for `EU_CYL = 1` the two matrices are those of the water propagator
   * with coefficients `M` and `-M`.
   */
  lemma CylindricalBoundaryRows(p: Params)
    requires ParamsOk(p) && p.cs != 0
    ensures Entry(LeftR(p), 0, 0) == Add(One, Scale(2.0, Mr(p))) && Entry(LeftR(p), 0, 1) == Scale(-2.0, Mr(p))
    ensures Entry(RightR(p), 0, 0) == Sub(One, Scale(2.0, Mr(p))) && Entry(RightR(p), 0, 1) == Scale(2.0, Mr(p))
    ensures IdentityRow(LeftR(p), p.nR - 1) && ZeroRow(RightR(p), p.nR - 1)
    ensures p.cs == 1 ==> LeftR(p) == Water.CrankNicolsonMatrix(p.nR, "left", Mr(p))
    ensures p.cs == 1 ==> RightR(p) == Water.CrankNicolsonMatrix(p.nR, "right", Neg(Mr(p)))
  {
    var n := p.nR;
    var m := Mr(p);
    var l := ArrayR(n, Neg(m), Add(One, Scale(2.0, m)), p.cs);
    var r := ArrayR(n, m, Sub(One, Scale(2.0, m)), p.cs);
    assert l.lower[n - 2] == Zero && r.lower[n - 2] == Zero;
    if p.cs == 1 {
      CylindricalDiagonalsAreStencil(n, m, Add(One, Scale(2.0, m)));
      CylindricalDiagonalsAreStencil(n, Neg(m), Sub(One, Scale(2.0, m)));
      assert Neg(Neg(m)) == m;
      var wl := Water.CrankNicolsonMatrix(n, "left", m);
      var wr := Water.CrankNicolsonMatrix(n, "right", Neg(m));
      assert LeftR(p).main == wl.main;
      assert LeftR(p).upper == wl.upper;
      assert Sub(One, Scale(2.0, m)) == Add(One, Scale(2.0, Neg(m)));
      assert Scale(2.0, m) == Scale(-2.0, Neg(m));
      assert RightR(p).main == wr.main;
      assert RightR(p).upper == wr.upper;
    }
  }

  /**
   * The temporal matrices: row 0 is an identity row on the left and zero
   * on the right, the last main entries are 1 and 0, but the entry below
   * the last main entry keeps its stencil value `∓M_t`.
   */
  lemma TemporalBoundaryRows(p: Params)
    requires ParamsOk(p)
    ensures IdentityRow(LeftT(p), 0) && ZeroRow(RightT(p), 0)
    ensures Entry(LeftT(p), p.nT - 1, p.nT - 1) == One && Entry(RightT(p), p.nT - 1, p.nT - 1) == Zero
    ensures Entry(LeftT(p), p.nT - 1, p.nT - 2) == Neg(Mt(p)) && Entry(RightT(p), p.nT - 1, p.nT - 2) == Mt(p)
    ensures forall i :: 1 <= i < p.nT - 1 ==>
      Entry(LeftT(p), i, i) == Add(One, Scale(2.0, Mt(p))) && Entry(LeftT(p), i, i - 1) == Neg(Mt(p)) &&
      Entry(LeftT(p), i, i + 1) == Neg(Mt(p))
  {
  }

  // ---------------------------------------------------------------------
  // The nonlinear term and the two-slot combination

  /** `dz·(KERR_COEFF·|E|² + MPA_COEFF·|E|^(2K-2))·E` at one point. */
  function NonlinearTerm(p: Params, x: Complex): Complex
    requires ParamsOk(p)
  {
    Mul(x, NonlinearFactor(AbsSq(x), p))
  }

  /** `DZ·(KERR_COEF·|e|² + MPA_COEF·|e|^(2N−2))`, as a function of `|e|²`. */
  function NonlinearFactor(e2: real, p: Params): Complex
    requires ParamsOk(p)
  {
    Scale(p.dz, Add(Scale(e2, p.kerr), Of(p.mpa * Pow(e2, p.photons - 1))))
  }

  /** The term vanishes with the field and is odd in it. */
  lemma NonlinearTermOdd(p: Params, x: Complex)
    requires ParamsOk(p)
    ensures NonlinearTerm(p, Zero) == Zero
    ensures NonlinearTerm(p, Neg(x)) == Neg(NonlinearTerm(p, x))
  {
    assert AbsSq(Neg(x)) == AbsSq(x);
    Water.NegTimes(x, NonlinearFactor(AbsSq(x), p));
  }

  function NonlinearVec(p: Params, v: seq<Complex>): (r: seq<Complex>)
    requires ParamsOk(p)
    ensures |r| == |v| && forall i :: 0 <= i < |v| ==> r[i] == NonlinearTerm(p, v[i])
  {
    seq(|v|, i requires 0 <= i < |v| => NonlinearTerm(p, v[i]))
  }

  function NonlinearMat(p: Params, m: Mat<Complex>): (r: Mat<Complex>)
    requires ParamsOk(p)
    ensures |r| == |m| && forall i :: 0 <= i < |m| ==> r[i] == NonlinearVec(p, m[i])
  {
    seq(|m|, i requires 0 <= i < |m| => NonlinearVec(p, m[i]))
  }

  /** `b + 0.25·(3·w1 - w0)`, the second-order Adams-Bashforth combination. */
  function Blend(b: Complex, w1: Complex, w0: Complex): Complex
  {
    Add(b, Scale(0.25, Sub(Scale(3.0, w1), w0)))
  }

  /** With both history slots equal the combination is `b + 0.5·w`. */
  lemma BlendEqualSlots(b: Complex, w: Complex)
    ensures Blend(b, w, w) == Add(b, Scale(0.5, w))
  {
  }

  function BlendVec(b: seq<Complex>, w1: seq<Complex>, w0: seq<Complex>): (r: seq<Complex>)
    requires |w1| == |b| && |w0| == |b|
    ensures |r| == |b| && forall i :: 0 <= i < |b| ==> r[i] == Blend(b[i], w1[i], w0[i])
  {
    seq(|b|, i requires 0 <= i < |b| => Blend(b[i], w1[i], w0[i]))
  }

  function BlendMat(b: Mat<Complex>, w1: Mat<Complex>, w0: Mat<Complex>, rows: nat, cols: nat): (r: Mat<Complex>)
    requires IsMat(b, rows, cols) && IsMat(w1, rows, cols) && IsMat(w0, rows, cols)
    ensures IsMat(r, rows, cols) && forall i :: 0 <= i < rows ==> r[i] == BlendVec(b[i], w1[i], w0[i])
  {
    seq(rows, i requires 0 <= i < rows => BlendVec(b[i], w1[i], w0[i]))
  }

  // ---------------------------------------------------------------------
  // Products and solves along rows and columns

  /** A solve hands back a vector as long as its right-hand side. */
  ghost predicate SolveKeepsLength(solve: (Tridiag, seq<Complex>) -> seq<Complex>)
  {
    forall t: Tridiag, rhs: seq<Complex> :: |solve(t, rhs)| == |rhs|
  }

  /** Row `i` becomes `t @ m[i, :]`. */
  function RowProducts(t: Tridiag, m: Mat<Complex>, rows: nat, cols: nat): (r: Mat<Complex>)
    requires WellFormed(t) && Size(t) == cols && IsMat(m, rows, cols)
    ensures IsMat(r, rows, cols) && forall i :: 0 <= i < rows ==> r[i] == MatVec(t, m[i])
  {
    seq(rows, i requires 0 <= i < rows => MatVec(t, m[i]))
  }

  /** Column `l` becomes `t @ m[:, l]`. */
  function ColumnProducts(t: Tridiag, m: Mat<Complex>, rows: nat, cols: nat): (r: Mat<Complex>)
    requires WellFormed(t) && Size(t) == rows && IsMat(m, rows, cols)
    ensures IsMat(r, rows, cols) && forall l :: 0 <= l < cols ==> Col(r, l) == MatVec(t, Col(m, l))
  {
    var r := seq(rows, i requires 0 <= i < rows => seq(cols, l requires 0 <= l < cols => MatVec(t, Col(m, l))[i]));
    assert forall l :: 0 <= l < cols ==> Col(r, l) == MatVec(t, Col(m, l));
    r
  }

  /** Row `i` becomes the solve of `t` against `m[i, :]`. */
  function RowSolves(solve: (Tridiag, seq<Complex>) -> seq<Complex>, t: Tridiag, m: Mat<Complex>,
                     rows: nat, cols: nat): (r: Mat<Complex>)
    requires SolveKeepsLength(solve) && IsMat(m, rows, cols)
    ensures IsMat(r, rows, cols) && forall i :: 0 <= i < rows ==> r[i] == solve(t, m[i])
  {
    seq(rows, i requires 0 <= i < rows => solve(t, m[i]))
  }

  /** Column `l` becomes the solve of `t` against `m[:, l]`. */
  function ColumnSolves(solve: (Tridiag, seq<Complex>) -> seq<Complex>, t: Tridiag, m: Mat<Complex>,
                        rows: nat, cols: nat): (r: Mat<Complex>)
    requires SolveKeepsLength(solve) && IsMat(m, rows, cols)
    ensures IsMat(r, rows, cols) && forall l :: 0 <= l < cols ==> Col(r, l) == solve(t, Col(m, l))
  {
    var r := seq(rows, i requires 0 <= i < rows => seq(cols, l requires 0 <= l < cols => solve(t, Col(m, l))[i]));
    assert forall l :: 0 <= l < cols ==> Col(r, l) == solve(t, Col(m, l));
    r
  }

  /** With an exact solve every row of a row solve satisfies `t·x = m[i, :]`. */
  lemma RowSolvesSolve(solve: (Tridiag, seq<Complex>) -> seq<Complex>, t: Tridiag, m: Mat<Complex>,
                       rows: nat, cols: nat, i: nat)
    requires SolveKeepsLength(solve) && Solves(solve, t) && Size(t) == cols && IsMat(m, rows, cols) && i < rows
    ensures MatVec(t, RowSolves(solve, t, m, rows, cols)[i]) == m[i]
  {
  }

  /** With an exact solve every column of a column solve satisfies `t·x = m[:, l]`. */
  lemma ColumnSolvesSolve(solve: (Tridiag, seq<Complex>) -> seq<Complex>, t: Tridiag, m: Mat<Complex>,
                          rows: nat, cols: nat, l: nat)
    requires SolveKeepsLength(solve) && Solves(solve, t) && Size(t) == rows && IsMat(m, rows, cols) && l < cols
    ensures MatVec(t, Col(ColumnSolves(solve, t, m, rows, cols), l)) == Col(m, l)
  {
  }

  // ---------------------------------------------------------------------
  // One propagation step as a function of the buffers

  /**
   * The script's buffers: the envelope, `envelope_store`, the on-axis
   * record, `b_array`, `c_array`, `f_array` and the two slots of `w_array`.
   */
  datatype AdiState = AdiState(envelope: Mat<Complex>, store: Mat<Complex>, axis: Mat<Complex>,
                               b: Mat<Complex>, c: Mat<Complex>, f: Mat<Complex>,
                               w0: Mat<Complex>, w1: Mat<Complex>)

  predicate Shaped(s: AdiState, p: Params)
  {
    && IsMat(s.envelope, p.nR, p.nT) && IsMat(s.store, p.nR, p.nT) && IsMat(s.axis, p.nSteps + 1, p.nT)
    && IsMat(s.b, p.nR, p.nT) && IsMat(s.c, p.nR, p.nT) && IsMat(s.f, p.nR, p.nT)
    && IsMat(s.w0, p.nR, p.nT) && IsMat(s.w1, p.nR, p.nT)
  }

  /** `b_array[i, :] = right_cn_matrix_t @ envelope[i, :]` for every row. */
  function TimeProducts(s: AdiState, p: Params): (r: AdiState)
    requires ParamsOk(p) && Shaped(s, p)
    ensures Shaped(r, p)
  {
    s.(b := RowProducts(RightT(p), s.envelope, p.nR, p.nT))
  }

  /**
   * The column loop of the first half-step: the nonlinear term of the
   * envelope goes to slot 1, and at `k = 0` also to slot 0, with the
   * on-axis entry recorded at row `k + 1`; then `f` is the combination and
   * `c` the radial solve.
   */
  function FirstHalfSolve(s: AdiState, p: Params, solve: (Tridiag, seq<Complex>) -> seq<Complex>, k: nat): (r: AdiState)
    requires ParamsOk(p) && Shaped(s, p) && SolveKeepsLength(solve) && k < p.nSteps
    ensures Shaped(r, p)
  {
    var nw := NonlinearMat(p, s.envelope);
    var w0 := if k == 0 then nw else s.w0;
    var f := BlendMat(s.b, nw, w0, p.nR, p.nT);
    s.(w0 := w0, w1 := nw, f := f, c := ColumnSolves(solve, LeftR(p), f, p.nR, p.nT),
       axis := if k == 0 then s.axis[k + 1 := s.envelope[p.axisNode]] else s.axis)
  }

  /** `w_array[:, :, 0] = w_array[:, :, 1]`. */
  function ShiftHistory(s: AdiState): (r: AdiState)
  {
    s.(w0 := s.w1)
  }

  /** `b_array[:, l] = right_cn_matrix_r @ c_array[:, l]` for every column. */
  function RadialProducts(s: AdiState, p: Params): (r: AdiState)
    requires ParamsOk(p) && Shaped(s, p)
    ensures Shaped(r, p)
  {
    s.(b := ColumnProducts(RightR(p), s.c, p.nR, p.nT))
  }

  /**
   * The row loop of the second half-step: at `k = 0` slot 0 takes the
   * nonlinear term of `c` and slot 1 keeps its value, with row `k + 1` of
   * the record taking the on-axis row of `c`; later slot 1 takes the term.
   * `envelope_store` gets the temporal solve, and so does the envelope
   * when the two names refer to one array.
   */
  function SecondHalfSolve(s: AdiState, p: Params, solve: (Tridiag, seq<Complex>) -> seq<Complex>, k: nat,
                           aliased: bool): (r: AdiState)
    requires ParamsOk(p) && Shaped(s, p) && SolveKeepsLength(solve) && k < p.nSteps
    ensures Shaped(r, p)
  {
    var nc := NonlinearMat(p, s.c);
    var w0 := if k == 0 then nc else s.w0;
    var w1 := if k == 0 then s.w1 else nc;
    var f := BlendMat(s.b, w1, w0, p.nR, p.nT);
    var e := RowSolves(solve, LeftT(p), f, p.nR, p.nT);
    s.(w0 := w0, w1 := w1, f := f, store := e, envelope := if aliased then e else s.envelope,
       axis := if k == 0 then s.axis[k + 1 := s.c[p.axisNode]] else s.axis)
  }

  /**
   * The end of a step: the slots shift, `envelope = envelope_store` and the
   * on-axis row of the new envelope goes to row `k + 1`.
   */
  function Commit(s: AdiState, p: Params, k: nat): (r: AdiState)
    requires ParamsOk(p) && Shaped(s, p) && k < p.nSteps
    ensures Shaped(r, p)
  {
    s.(w0 := s.w1, envelope := s.store, axis := s.axis[k + 1 := s.store[p.axisNode]])
  }

  /** Step `k` of the loop. */
  function AdiStep(s: AdiState, p: Params, solve: (Tridiag, seq<Complex>) -> seq<Complex>, k: nat): (r: AdiState)
    requires ParamsOk(p) && Shaped(s, p) && SolveKeepsLength(solve) && k < p.nSteps
    ensures Shaped(r, p)
  {
    var s2 := FirstHalfSolve(TimeProducts(s, p), p, solve, k);
    var s4 := RadialProducts(ShiftHistory(s2), p);
    Commit(SecondHalfSolve(s4, p, solve, k, false), p, k)
  }

  /** Sharing one array between the envelope and `envelope_store` does not change a step. */
  lemma AliasingIsHarmless(s: AdiState, p: Params, solve: (Tridiag, seq<Complex>) -> seq<Complex>, k: nat)
    requires ParamsOk(p) && Shaped(s, p) && SolveKeepsLength(solve) && k < p.nSteps
    ensures Commit(SecondHalfSolve(s, p, solve, k, true), p, k) == Commit(SecondHalfSolve(s, p, solve, k, false), p, k)
  {
  }

  /**
   * The history after step `k`: both slots hold the same term, that of
   * the initial envelope after step 0 and that of the radial half-step
   * `c` after any later step.
   */
  lemma HistoryAfterStep(s: AdiState, p: Params, solve: (Tridiag, seq<Complex>) -> seq<Complex>, k: nat)
    requires ParamsOk(p) && Shaped(s, p) && SolveKeepsLength(solve) && k < p.nSteps
    ensures var r := AdiStep(s, p, solve, k);
      r.w0 == r.w1 && r.w1 == if k == 0 then NonlinearMat(p, s.envelope) else NonlinearMat(p, r.c)
  {
  }

  /**
   * The combinations of step `k`. In the first half-step, `k = 0` fills
   * both slots, giving `b + 0.5·N(E)`; later the older slot is the history
   * carried over from step `k - 1`. In the second half-step of step 0,
   * slot 1 keeps the term of the initial envelope, giving
   * `b + 0.25·(3·N(E) - N(c))`; later it is `b + 0.25·(3·N(c) - N(E))`.
   */
  lemma HalfStepCombinations(s: AdiState, p: Params, solve: (Tridiag, seq<Complex>) -> seq<Complex>, k: nat)
    requires ParamsOk(p) && Shaped(s, p) && SolveKeepsLength(solve) && k < p.nSteps
    ensures var s1 := TimeProducts(s, p);
      var h := FirstHalfSolve(s1, p, solve, k);
      var ne := NonlinearMat(p, s.envelope);
      && (k == 0 ==> forall i, j :: 0 <= i < p.nR && 0 <= j < p.nT ==> h.f[i][j] == Add(s1.b[i][j], Scale(0.5, ne[i][j])))
      && (k > 0 ==> h.f == BlendMat(s1.b, ne, s.w0, p.nR, p.nT))
    ensures var r := AdiStep(s, p, solve, k);
      var ne := NonlinearMat(p, s.envelope);
      var nc := NonlinearMat(p, r.c);
      r.f == if k == 0 then BlendMat(r.b, ne, nc, p.nR, p.nT) else BlendMat(r.b, nc, ne, p.nR, p.nT)
  {
    var s1 := TimeProducts(s, p);
    var h := FirstHalfSolve(s1, p, solve, k);
    var ne := NonlinearMat(p, s.envelope);
    if k == 0 {
      forall i, j | 0 <= i < p.nR && 0 <= j < p.nT
        ensures h.f[i][j] == Add(s1.b[i][j], Scale(0.5, ne[i][j]))
      {
        BlendEqualSlots(s1.b[i][j], ne[i][j]);
      }
    }
  }

  /** A step of the loop as a function of the state and the step index. */
  type StepFn = (AdiState, nat) -> AdiState

  /**
   * A marker that lets the link between a step function and `AdiStep` be
   * used only where a proof names the state and index it needs.
   */
  ghost predicate Applied(s: AdiState, k: nat) { true }

  /** `step` is step `k` of the loop on every well-shaped state. */
  ghost predicate Models(step: StepFn, p: Params, solve: (Tridiag, seq<Complex>) -> seq<Complex>)
  {
    forall s: AdiState, k: nat {:trigger Applied(s, k)} ::
      ParamsOk(p) && Shaped(s, p) && SolveKeepsLength(solve) && k < p.nSteps ==>
        step(s, k) == AdiStep(s, p, solve, k)
  }

  /** Such a step function exists. */
  ghost function Stepper(p: Params, solve: (Tridiag, seq<Complex>) -> seq<Complex>): (step: StepFn)
    ensures Models(step, p, solve)
  {
    (s: AdiState, k: nat) =>
      if ParamsOk(p) && Shaped(s, p) && SolveKeepsLength(solve) && k < p.nSteps then AdiStep(s, p, solve, k) else s
  }

  /** The state after the first `k` steps. */
  function Run(s: AdiState, step: StepFn, k: nat): AdiState
  {
    if k == 0 then s else step(Run(s, step, k - 1), k - 1)
  }

  /** A step keeps the shapes and stores the on-axis row of the new envelope at row `k + 1`. */
  ghost predicate RecordsAxis(step: StepFn, p: Params)
    requires ParamsOk(p)
  {
    forall s: AdiState, k: nat :: Shaped(s, p) && k < p.nSteps ==>
      Shaped(step(s, k), p) && step(s, k).axis == s.axis[k + 1 := step(s, k).envelope[p.axisNode]]
  }

  /** Step `k` ends by storing the on-axis row of the new envelope. */
  lemma StepRecordsAxis(s: AdiState, p: Params, solve: (Tridiag, seq<Complex>) -> seq<Complex>, k: nat)
    requires ParamsOk(p) && Shaped(s, p) && SolveKeepsLength(solve) && k < p.nSteps
    ensures AdiStep(s, p, solve, k).axis == s.axis[k + 1 := AdiStep(s, p, solve, k).envelope[p.axisNode]]
  {
  }

  lemma ModelRecordsAxis(step: StepFn, p: Params, solve: (Tridiag, seq<Complex>) -> seq<Complex>)
    requires ParamsOk(p) && SolveKeepsLength(solve) && Models(step, p, solve)
    ensures RecordsAxis(step, p)
  {
    forall s: AdiState, k: nat | Shaped(s, p) && k < p.nSteps
      ensures Shaped(step(s, k), p) && step(s, k).axis == s.axis[k + 1 := step(s, k).envelope[p.axisNode]]
    {
      assert Applied(s, k);
      StepRecordsAxis(s, p, solve, k);
    }
  }

  /**
   * After `k` steps, row 0 of the record is untouched, row `j` for
   * `1 <= j <= k` is the on-axis row of the envelope after `j` steps (the
   * provisional values of step 0 are overwritten), and later rows are
   * untouched.
   */
  lemma {:induction false} AxisHistory(s: AdiState, p: Params, step: StepFn, k: nat)
    requires ParamsOk(p) && RecordsAxis(step, p) && Shaped(s, p) && k <= p.nSteps
    ensures Shaped(Run(s, step, k), p)
    ensures Run(s, step, k).axis[0] == s.axis[0]
    ensures forall j :: 1 <= j <= k ==>
      Shaped(Run(s, step, j), p) && Run(s, step, k).axis[j] == Run(s, step, j).envelope[p.axisNode]
    ensures forall j :: k < j <= p.nSteps ==> Run(s, step, k).axis[j] == s.axis[j]
  {
    if k > 0 {
      AxisHistory(s, p, step, k - 1);
    }
  }

  // ---------------------------------------------------------------------
  // Partial progress of the column and row loops

  /** Columns `< l` taken from `n`, the others from `m`. */
  function LeftColumns(m: Mat<Complex>, n: Mat<Complex>, l: nat, rows: nat, cols: nat): (r: Mat<Complex>)
    requires IsMat(m, rows, cols) && IsMat(n, rows, cols)
    ensures IsMat(r, rows, cols)
    ensures forall i, j :: 0 <= i < rows && 0 <= j < cols ==> r[i][j] == if j < l then n[i][j] else m[i][j]
  {
    seq(rows, i requires 0 <= i < rows => seq(cols, j requires 0 <= j < cols => if j < l then n[i][j] else m[i][j]))
  }

  /** Rows `< i` taken from `n`, the others from `m`. */
  function TopRows(m: Mat<Complex>, n: Mat<Complex>, i: nat): (r: Mat<Complex>)
    requires |m| == |n|
    ensures |r| == |m| && forall q :: 0 <= q < |m| ==> r[q] == if q < i then n[q] else m[q]
  {
    seq(|m|, q requires 0 <= q < |m| => if q < i then n[q] else m[q])
  }

  /** Progress of the first half-step's column loop after `l` columns, towards `t`. */
  function FirstHalfUpTo(s: AdiState, t: AdiState, p: Params, l: nat): (r: AdiState)
    requires Shaped(s, p) && Shaped(t, p)
    ensures Shaped(r, p)
  {
    s.(w0 := LeftColumns(s.w0, t.w0, l, p.nR, p.nT), w1 := LeftColumns(s.w1, t.w1, l, p.nR, p.nT),
       f := LeftColumns(s.f, t.f, l, p.nR, p.nT), c := LeftColumns(s.c, t.c, l, p.nR, p.nT),
       axis := LeftColumns(s.axis, t.axis, l, p.nSteps + 1, p.nT))
  }

  /**
   * Progress of the second half-step's row loop after `i` rows, towards
   * `t`, for every buffer but the envelope (which may share its array with
   * `envelope_store`).
   */
  function SecondHalfUpTo(s: AdiState, t: AdiState, p: Params, i: nat): (r: AdiState)
    requires Shaped(s, p) && Shaped(t, p)
    ensures Shaped(r, p)
  {
    s.(w0 := TopRows(s.w0, t.w0, i), w1 := TopRows(s.w1, t.w1, i), f := TopRows(s.f, t.f, i),
       store := TopRows(s.store, t.store, i), axis := if i > p.axisNode then t.axis else s.axis)
  }

  /**
   * A marker for row or column `i`: the facts of a loop's target are
   * opened only for the index a proof names.
   */
  ghost predicate At(i: nat) { true }

  /** The slots, the record and `f` as the column loop of the first half-step writes them. */
  ghost predicate FirstHalfBlend(s: AdiState, t: AdiState, p: Params, k: nat)
    requires ParamsOk(p) && Shaped(s, p) && Shaped(t, p) && k < p.nSteps
  {
    && (forall l {:trigger At(l)} :: 0 <= l < p.nT && At(l) ==> Col(t.w1, l) == NonlinearVec(p, Col(s.envelope, l)))
    && (if k == 0 then t.w0 == t.w1 && t.axis == s.axis[k + 1 := s.envelope[p.axisNode]]
        else t.w0 == s.w0 && t.axis == s.axis)
    && (forall l {:trigger At(l)} :: 0 <= l < p.nT && At(l) ==>
          Col(t.f, l) == BlendVec(Col(s.b, l), Col(t.w1, l), Col(t.w0, l)))
  }

  /** What the column loop of the first half-step writes, column by column. */
  ghost predicate FirstHalfTarget(s: AdiState, t: AdiState, p: Params, solve: (Tridiag, seq<Complex>) -> seq<Complex>,
                                  k: nat)
    requires ParamsOk(p) && Shaped(s, p) && Shaped(t, p) && k < p.nSteps
  {
    && FirstHalfBlend(s, t, p, k)
    && (forall l {:trigger At(l)} :: 0 <= l < p.nT && At(l) ==> Col(t.c, l) == solve(LeftR(p), Col(t.f, l)))
  }

  lemma FirstHalfSolveTarget(s: AdiState, p: Params, solve: (Tridiag, seq<Complex>) -> seq<Complex>, k: nat)
    requires ParamsOk(p) && Shaped(s, p) && SolveKeepsLength(solve) && k < p.nSteps
    ensures FirstHalfTarget(s, FirstHalfSolve(s, p, solve, k), p, solve, k)
  {
    var t := FirstHalfSolve(s, p, solve, k);
    forall l | 0 <= l < p.nT
      ensures Col(t.w1, l) == NonlinearVec(p, Col(s.envelope, l))
      ensures Col(t.f, l) == BlendVec(Col(s.b, l), Col(t.w1, l), Col(t.w0, l))
      ensures Col(t.c, l) == solve(LeftR(p), Col(t.f, l))
    {
      NonlinearCol(p, s.envelope, l, p.nR, p.nT);
      BlendCol(s.b, t.w1, t.w0, l, p.nR, p.nT);
    }
  }

  /** The progress of the column loop starts at `s` and ends at `t`. */
  lemma FirstHalfUpToEnds(s: AdiState, t: AdiState, p: Params, solve: (Tridiag, seq<Complex>) -> seq<Complex>, k: nat)
    requires ParamsOk(p) && Shaped(s, p) && SolveKeepsLength(solve) && k < p.nSteps
    requires t == FirstHalfSolve(s, p, solve, k)
    ensures FirstHalfUpTo(s, t, p, 0) == s && FirstHalfUpTo(s, t, p, p.nT) == t
  {
    LeftColumnsEnds(s.w0, t.w0, p.nR, p.nT);
    LeftColumnsEnds(s.w1, t.w1, p.nR, p.nT);
    LeftColumnsEnds(s.f, t.f, p.nR, p.nT);
    LeftColumnsEnds(s.c, t.c, p.nR, p.nT);
    LeftColumnsEnds(s.axis, t.axis, p.nSteps + 1, p.nT);
  }

  /** The slots, the record and `f` as the row loop of the second half-step writes them. */
  ghost predicate SecondHalfBlend(s: AdiState, t: AdiState, p: Params, k: nat)
    requires ParamsOk(p) && Shaped(s, p) && Shaped(t, p) && k < p.nSteps
  {
    && (if k == 0 then (forall i {:trigger At(i)} :: 0 <= i < p.nR && At(i) ==> t.w0[i] == NonlinearVec(p, s.c[i]))
                       && t.w1 == s.w1 && t.axis == s.axis[k + 1 := s.c[p.axisNode]]
        else && t.w0 == s.w0 && t.axis == s.axis
             && (forall i {:trigger At(i)} :: 0 <= i < p.nR && At(i) ==> t.w1[i] == NonlinearVec(p, s.c[i])))
    && (forall i {:trigger At(i)} :: 0 <= i < p.nR && At(i) ==> t.f[i] == BlendVec(s.b[i], t.w1[i], t.w0[i]))
  }

  /** What the row loop of the second half-step writes, row by row. */
  ghost predicate SecondHalfTarget(s: AdiState, t: AdiState, p: Params, solve: (Tridiag, seq<Complex>) -> seq<Complex>,
                                   k: nat)
    requires ParamsOk(p) && Shaped(s, p) && Shaped(t, p) && k < p.nSteps
  {
    && SecondHalfBlend(s, t, p, k)
    && (forall i {:trigger At(i)} :: 0 <= i < p.nR && At(i) ==> t.store[i] == solve(LeftT(p), t.f[i]))
  }

  lemma SecondHalfSolveTarget(s: AdiState, p: Params, solve: (Tridiag, seq<Complex>) -> seq<Complex>, k: nat,
                              aliased: bool)
    requires ParamsOk(p) && Shaped(s, p) && SolveKeepsLength(solve) && k < p.nSteps
    ensures SecondHalfTarget(s, SecondHalfSolve(s, p, solve, k, aliased), p, solve, k)
  {
  }

  /** The progress of the row loop starts at `s` and ends at `t`. */
  lemma SecondHalfUpToEnds(s: AdiState, t: AdiState, p: Params, solve: (Tridiag, seq<Complex>) -> seq<Complex>,
                           k: nat, aliased: bool)
    requires ParamsOk(p) && Shaped(s, p) && SolveKeepsLength(solve) && k < p.nSteps
    requires t == SecondHalfSolve(s, p, solve, k, aliased)
    ensures SecondHalfUpTo(s, t, p, 0) == s && SecondHalfUpTo(s, t, p, p.nR) == t.(envelope := s.envelope)
  {
  }

  lemma LeftColumnsEnds(m: Mat<Complex>, n: Mat<Complex>, rows: nat, cols: nat)
    requires IsMat(m, rows, cols) && IsMat(n, rows, cols)
    ensures LeftColumns(m, n, 0, rows, cols) == m && LeftColumns(m, n, cols, rows, cols) == n
  {
    SameEntries(LeftColumns(m, n, 0, rows, cols), m, rows, cols);
    SameEntries(LeftColumns(m, n, cols, rows, cols), n, rows, cols);
  }

  lemma LeftColumnsSame(m: Mat<Complex>, l: nat, rows: nat, cols: nat)
    requires IsMat(m, rows, cols)
    ensures LeftColumns(m, m, l, rows, cols) == m
  {
    SameEntries(LeftColumns(m, m, l, rows, cols), m, rows, cols);
  }

  /** Writing column `l` of the target extends the progress by one column. */
  lemma LeftColumnsNext(m: Mat<Complex>, n: Mat<Complex>, l: nat, rows: nat, cols: nat)
    requires IsMat(m, rows, cols) && IsMat(n, rows, cols) && l < cols
    ensures WithColumn(LeftColumns(m, n, l, rows, cols), l, Col(n, l)) == LeftColumns(m, n, l + 1, rows, cols)
  {
    SameEntries(WithColumn(LeftColumns(m, n, l, rows, cols), l, Col(n, l)), LeftColumns(m, n, l + 1, rows, cols),
                rows, cols);
  }

  /** When the target differs from `m` only in row `r`, one entry extends the progress by one column. */
  lemma LeftColumnsEntry(m: Mat<Complex>, n: Mat<Complex>, l: nat, r: nat, rows: nat, cols: nat)
    requires IsMat(m, rows, cols) && IsMat(n, rows, cols) && l < cols && r < rows
    requires forall q :: 0 <= q < rows && q != r ==> m[q] == n[q]
    ensures var x := LeftColumns(m, n, l, rows, cols);
      x[r := x[r][l := n[r][l]]] == LeftColumns(m, n, l + 1, rows, cols)
  {
    var x := LeftColumns(m, n, l, rows, cols);
    SameEntries(x[r := x[r][l := n[r][l]]], LeftColumns(m, n, l + 1, rows, cols), rows, cols);
  }

  /** Writing row `i` of the target extends the progress by one row. */
  lemma TopRowsNext(m: Mat<Complex>, n: Mat<Complex>, i: nat)
    requires |m| == |n| && i < |m|
    ensures TopRows(m, n, i)[i := n[i]] == TopRows(m, n, i + 1)
  {
  }

  /** A row the target leaves as it was needs no write. */
  lemma TopRowsKeep(m: Mat<Complex>, n: Mat<Complex>, i: nat)
    requires |m| == |n| && i < |m| && m[i] == n[i]
    ensures TopRows(m, n, i + 1) == TopRows(m, n, i)
  {
  }

  /** Column `l` of the nonlinear terms is the nonlinear term of column `l`. */
  lemma NonlinearCol(p: Params, e: Mat<Complex>, l: nat, rows: nat, cols: nat)
    requires ParamsOk(p) && IsMat(e, rows, cols) && l < cols
    ensures Col(NonlinearMat(p, e), l) == NonlinearVec(p, Col(e, l))
  {
  }

  /** Column `l` of the combination is the combination of the columns `l`. */
  lemma BlendCol(b: Mat<Complex>, w1: Mat<Complex>, w0: Mat<Complex>, l: nat, rows: nat, cols: nat)
    requires IsMat(b, rows, cols) && IsMat(w1, rows, cols) && IsMat(w0, rows, cols) && l < cols
    ensures Col(BlendMat(b, w1, w0, rows, cols), l) == BlendVec(Col(b, l), Col(w1, l), Col(w0, l))
  {
  }

  // ---------------------------------------------------------------------
  // The script's state and loop

  /** The buffers of the script; `envelope` is rebound to `envelope_store` after the first step. */
  class AdiSolver {
    const p: Params
    var envelope: array2<Complex>
    const store: array2<Complex>
    const axis: array2<Complex>
    const b: array2<Complex>
    const c: array2<Complex>
    const f: array2<Complex>
    const w0: array2<Complex>
    const w1: array2<Complex>

    ghost predicate Valid()
      reads this
    {
      && ParamsOk(p)
      && envelope.Length0 == p.nR && envelope.Length1 == p.nT
      && store.Length0 == p.nR && store.Length1 == p.nT
      && axis.Length0 == p.nSteps + 1 && axis.Length1 == p.nT
      && b.Length0 == p.nR && b.Length1 == p.nT && c.Length0 == p.nR && c.Length1 == p.nT
      && f.Length0 == p.nR && f.Length1 == p.nT
      && w0.Length0 == p.nR && w0.Length1 == p.nT && w1.Length0 == p.nR && w1.Length1 == p.nT
      && envelope != axis && envelope != b && envelope != c && envelope != f && envelope != w0 && envelope != w1
      && store != axis && store != b && store != c && store != f && store != w0 && store != w1
      && axis != b && axis != c && axis != f && axis != w0 && axis != w1
      && b != c && b != f && b != w0 && b != w1
      && c != f && c != w0 && c != w1
      && f != w0 && f != w1 && w0 != w1
    }

    function State(): (s: AdiState)
      reads this, envelope, store, axis, b, c, f, w0, w1
      requires Valid()
      ensures Shaped(s, p)
    {
      AdiState(Snapshot(envelope), Snapshot(store), Snapshot(axis), Snapshot(b), Snapshot(c), Snapshot(f),
               Snapshot(w0), Snapshot(w1))
    }

    /**
     * The set-up for an initial envelope `init`: fresh buffers with
     * unspecified contents (`np.empty`), the envelope and its on-axis row
     * in row 0 of the record.
     */
    constructor (params: Params, init: Mat<Complex>)
      requires ParamsOk(params) && IsMat(init, params.nR, params.nT)
      ensures Valid() && p == params && envelope != store
      ensures State().envelope == init && State().axis[0] == init[params.axisNode]
      ensures fresh(envelope) && fresh(store) && fresh(axis) && fresh(b) && fresh(c) && fresh(f)
      ensures fresh(w0) && fresh(w1)
    {
      var e := FromMat(init, params.nR, params.nT);
      var ax := new Complex[params.nSteps + 1, params.nT];
      p := params;
      envelope := e;
      store := new Complex[params.nR, params.nT];
      axis := ax;
      b := new Complex[params.nR, params.nT];
      c := new Complex[params.nR, params.nT];
      f := new Complex[params.nR, params.nT];
      w0 := new Complex[params.nR, params.nT];
      w1 := new Complex[params.nR, params.nT];
      WriteRow(ax, 0, init[params.axisNode]);
    }

    /** The first loop of a step: `b_array[i, :] = right_cn_matrix_t @ envelope[i, :]`. */
    method TimeRhs()
      requires Valid()
      modifies b
      ensures State() == TimeProducts(old(State()), p)
    {
      ghost var s0 := State();
      ghost var target := RowProducts(RightT(p), s0.envelope, p.nR, p.nT);
      var i := 0;
      while i < p.nR
        invariant i <= p.nR
        invariant State() == s0.(b := TopRows(s0.b, target, i))
      {
        WriteRow(b, i, MatVec(RightT(p), Row(envelope, i)));
        assert Row(envelope, i) == s0.envelope[i];
        i := i + 1;
      }
      assert TopRows(s0.b, target, p.nR) == target;
    }

    /**
     * The nonlinear term of column `l` of the envelope goes to slot 1 and,
     * at `k = 0`, to slot 0, with the on-axis entry recorded in row `k + 1`.
     */
    method ColumnTerms(k: nat, l: nat, ghost s0: AdiState, ghost t: AdiState)
      requires Valid() && k < p.nSteps && l < p.nT
      requires Shaped(s0, p) && Shaped(t, p) && FirstHalfBlend(s0, t, p, k)
      requires State() == FirstHalfUpTo(s0, t, p, l)
      modifies w0, w1, axis
      ensures State() == old(State()).(w0 := LeftColumns(s0.w0, t.w0, l + 1, p.nR, p.nT),
                                       w1 := LeftColumns(s0.w1, t.w1, l + 1, p.nR, p.nT),
                                       axis := LeftColumns(s0.axis, t.axis, l + 1, p.nSteps + 1, p.nT))
    {
      assert At(l);
      var col := Column(envelope, l);
      assert col == Col(s0.envelope, l);
      if k == 0 {
        SeedColumnTerms(k, l, col, s0, t);
      } else {
        WriteColumn(w1, l, NonlinearVec(p, col));
        LeftColumnsNext(s0.w1, t.w1, l, p.nR, p.nT);
        LeftColumnsSame(s0.w0, l, p.nR, p.nT);
        LeftColumnsSame(s0.w0, l + 1, p.nR, p.nT);
        LeftColumnsSame(s0.axis, l, p.nSteps + 1, p.nT);
        LeftColumnsSame(s0.axis, l + 1, p.nSteps + 1, p.nT);
      }
    }

    /** At `k = 0` both slots take the term of column `l` and the record its on-axis entry. */
    method SeedColumnTerms(k: nat, l: nat, col: seq<Complex>, ghost s0: AdiState, ghost t: AdiState)
      requires Valid() && k == 0 && k < p.nSteps && l < p.nT
      requires Shaped(s0, p) && Shaped(t, p) && FirstHalfBlend(s0, t, p, k) && At(l)
      requires col == Col(s0.envelope, l)
      requires State() == FirstHalfUpTo(s0, t, p, l)
      modifies w0, w1, axis
      ensures State() == old(State()).(w0 := LeftColumns(s0.w0, t.w0, l + 1, p.nR, p.nT),
                                       w1 := LeftColumns(s0.w1, t.w1, l + 1, p.nR, p.nT),
                                       axis := LeftColumns(s0.axis, t.axis, l + 1, p.nSteps + 1, p.nT))
    {
      WriteColumn(w0, l, NonlinearVec(p, col));
      var guess := seq(|col|, i requires 0 <= i < |col| => Scale(1.0, col[i]));
      assert guess == col;
      WriteColumn(w1, l, NonlinearVec(p, guess));
      WriteEntry(axis, k + 1, l, guess[p.axisNode]);
      LeftColumnsNext(s0.w0, t.w0, l, p.nR, p.nT);
      LeftColumnsNext(s0.w1, t.w1, l, p.nR, p.nT);
      LeftColumnsEntry(s0.axis, t.axis, l, k + 1, p.nSteps + 1, p.nT);
    }

    /** `f_array[:, l]`: the combination of `b_array[:, l]` and the two slots. */
    method ColumnBlend(k: nat, l: nat, ghost s0: AdiState, ghost t: AdiState)
      requires Valid() && k < p.nSteps && l < p.nT
      requires Shaped(s0, p) && Shaped(t, p) && FirstHalfBlend(s0, t, p, k)
      requires State() == FirstHalfUpTo(s0, t, p, l).(w0 := LeftColumns(s0.w0, t.w0, l + 1, p.nR, p.nT),
                                                      w1 := LeftColumns(s0.w1, t.w1, l + 1, p.nR, p.nT),
                                                      axis := LeftColumns(s0.axis, t.axis, l + 1, p.nSteps + 1, p.nT))
      modifies f
      ensures State() == old(State()).(f := LeftColumns(s0.f, t.f, l + 1, p.nR, p.nT))
    {
      assert At(l);
      assert Column(w0, l) == Col(t.w0, l);
      assert Column(w1, l) == Col(t.w1, l);
      assert Column(b, l) == Col(s0.b, l);
      WriteColumn(f, l, BlendVec(Column(b, l), Column(w1, l), Column(w0, l)));
      LeftColumnsNext(s0.f, t.f, l, p.nR, p.nT);
    }

    /** `c_array[:, l]`: the radial solve against `f_array[:, l]`. */
    method ColumnSolve(solve: (Tridiag, seq<Complex>) -> seq<Complex>, k: nat, l: nat,
                       ghost s0: AdiState, ghost t: AdiState)
      requires Valid() && SolveKeepsLength(solve) && k < p.nSteps && l < p.nT
      requires Shaped(s0, p) && Shaped(t, p) && FirstHalfTarget(s0, t, p, solve, k)
      requires Snapshot(f) == LeftColumns(s0.f, t.f, l + 1, p.nR, p.nT)
      requires Snapshot(c) == LeftColumns(s0.c, t.c, l, p.nR, p.nT)
      modifies c
      ensures State() == old(State()).(c := LeftColumns(s0.c, t.c, l + 1, p.nR, p.nT))
    {
      assert At(l);
      assert Column(f, l) == Col(t.f, l);
      WriteColumn(c, l, solve(LeftR(p), Column(f, l)));
      LeftColumnsNext(s0.c, t.c, l, p.nR, p.nT);
    }

    /** Column `l` of the first half-step. */
    method FirstHalfColumn(solve: (Tridiag, seq<Complex>) -> seq<Complex>, k: nat, l: nat,
                           ghost s0: AdiState, ghost t: AdiState)
      requires Valid() && SolveKeepsLength(solve) && k < p.nSteps && l < p.nT
      requires Shaped(s0, p) && Shaped(t, p) && FirstHalfTarget(s0, t, p, solve, k)
      requires State() == FirstHalfUpTo(s0, t, p, l)
      modifies w0, w1, f, c, axis
      ensures State() == FirstHalfUpTo(s0, t, p, l + 1)
    {
      ColumnTerms(k, l, s0, t);
      ColumnBlend(k, l, s0, t);
      ColumnSolve(solve, k, l, s0, t);
    }

    /** The column loop of the first half-step, towards a target given by its columns. */
    method FirstHalfColumns(solve: (Tridiag, seq<Complex>) -> seq<Complex>, k: nat,
                            ghost s0: AdiState, ghost t: AdiState)
      requires Valid() && SolveKeepsLength(solve) && k < p.nSteps
      requires Shaped(s0, p) && Shaped(t, p) && FirstHalfTarget(s0, t, p, solve, k)
      requires State() == FirstHalfUpTo(s0, t, p, 0)
      modifies w0, w1, f, c, axis
      ensures State() == FirstHalfUpTo(s0, t, p, p.nT)
    {
      var l := 0;
      while l < p.nT
        invariant l <= p.nT
        invariant State() == FirstHalfUpTo(s0, t, p, l)
      {
        FirstHalfColumn(solve, k, l, s0, t);
        l := l + 1;
      }
    }

    /** The first half-step. */
    method FirstHalf(solve: (Tridiag, seq<Complex>) -> seq<Complex>, k: nat)
      requires Valid() && SolveKeepsLength(solve) && k < p.nSteps
      modifies w0, w1, f, c, axis
      ensures State() == FirstHalfSolve(old(State()), p, solve, k)
    {
      ghost var s0 := State();
      ghost var t := FirstHalfSolve(s0, p, solve, k);
      FirstHalfSolveTarget(s0, p, solve, k);
      FirstHalfUpToEnds(s0, t, p, solve, k);
      FirstHalfColumns(solve, k, s0, t);
    }

    /** `w_array[:, :, 0] = w_array[:, :, 1]`. */
    method ShiftSlots()
      requires Valid()
      modifies w0
      ensures State() == ShiftHistory(old(State()))
    {
      CopyInto(w1, w0);
    }

    /** The first loop of the second half-step: `b_array[:, l] = right_cn_matrix_r @ c_array[:, l]`. */
    method RadialRhs()
      requires Valid()
      modifies b
      ensures State() == RadialProducts(old(State()), p)
    {
      ghost var s0 := State();
      ghost var target := ColumnProducts(RightR(p), s0.c, p.nR, p.nT);
      LeftColumnsEnds(s0.b, target, p.nR, p.nT);
      var l := 0;
      while l < p.nT
        invariant l <= p.nT
        invariant State() == s0.(b := LeftColumns(s0.b, target, l, p.nR, p.nT))
      {
        RadialColumn(l, s0, target);
        l := l + 1;
      }
    }

    /** One column of `RadialRhs`. */
    method RadialColumn(l: nat, ghost s0: AdiState, ghost target: Mat<Complex>)
      requires Valid() && l < p.nT && Shaped(s0, p) && target == ColumnProducts(RightR(p), s0.c, p.nR, p.nT)
      requires State() == s0.(b := LeftColumns(s0.b, target, l, p.nR, p.nT))
      modifies b
      ensures State() == s0.(b := LeftColumns(s0.b, target, l + 1, p.nR, p.nT))
    {
      assert Column(c, l) == Col(s0.c, l);
      WriteColumn(b, l, MatVec(RightR(p), Column(c, l)));
      LeftColumnsNext(s0.b, target, l, p.nR, p.nT);
    }

    /**
     * The nonlinear term of row `i` of `c` goes to slot 0 at `k = 0`, with
     * the on-axis row recorded in row `k + 1`, and to slot 1 later.
     */
    method RowTerms(k: nat, i: nat, ghost s0: AdiState, ghost t: AdiState)
      requires Valid() && k < p.nSteps && i < p.nR
      requires Shaped(s0, p) && Shaped(t, p) && SecondHalfBlend(s0, t, p, k)
      requires State().(envelope := s0.envelope) == SecondHalfUpTo(s0, t, p, i)
      modifies w0, w1, axis
      ensures State() == old(State()).(w0 := TopRows(s0.w0, t.w0, i + 1), w1 := TopRows(s0.w1, t.w1, i + 1),
                                       axis := if i + 1 > p.axisNode then t.axis else s0.axis)
    {
      assert At(i);
      var row := Row(c, i);
      assert row == s0.c[i];
      var nc := NonlinearVec(p, row);
      if k == 0 {
        WriteRow(w0, i, nc);
        var guess := seq(|row|, q requires 0 <= q < |row| => Scale(1.0, row[q]));
        assert guess == row;
        if i == p.axisNode {
          WriteRow(axis, k + 1, guess);
        }
        TopRowsNext(s0.w0, t.w0, i);
        TopRowsKeep(s0.w1, t.w1, i);
      } else {
        WriteRow(w1, i, nc);
        TopRowsKeep(s0.w0, t.w0, i);
        TopRowsNext(s0.w1, t.w1, i);
      }
    }

    /** `f_array[i, :]`: the combination of `b_array[i, :]` and the two slots. */
    method RowBlend(k: nat, i: nat, ghost s0: AdiState, ghost t: AdiState)
      requires Valid() && k < p.nSteps && i < p.nR
      requires Shaped(s0, p) && Shaped(t, p) && SecondHalfBlend(s0, t, p, k)
      requires Snapshot(b) == s0.b && Snapshot(w0) == TopRows(s0.w0, t.w0, i + 1)
      requires Snapshot(w1) == TopRows(s0.w1, t.w1, i + 1) && Snapshot(f) == TopRows(s0.f, t.f, i)
      modifies f
      ensures State() == old(State()).(f := TopRows(s0.f, t.f, i + 1))
    {
      assert At(i);
      assert Row(b, i) == s0.b[i] && Row(w1, i) == t.w1[i] && Row(w0, i) == t.w0[i];
      WriteRow(f, i, BlendVec(Row(b, i), Row(w1, i), Row(w0, i)));
      TopRowsNext(s0.f, t.f, i);
    }

    /** `envelope_store[i, :]`: the temporal solve against `f_array[i, :]`. */
    method RowSolve(solve: (Tridiag, seq<Complex>) -> seq<Complex>, k: nat, i: nat,
                    ghost s0: AdiState, ghost t: AdiState)
      requires Valid() && SolveKeepsLength(solve) && k < p.nSteps && i < p.nR
      requires Shaped(s0, p) && Shaped(t, p) && SecondHalfTarget(s0, t, p, solve, k)
      requires Snapshot(f) == TopRows(s0.f, t.f, i + 1) && Snapshot(store) == TopRows(s0.store, t.store, i)
      modifies store
      ensures State().(envelope := s0.envelope) == old(State()).(envelope := s0.envelope,
                                                                 store := TopRows(s0.store, t.store, i + 1))
    {
      assert At(i);
      assert Row(f, i) == t.f[i];
      WriteRow(store, i, solve(LeftT(p), Row(f, i)));
      TopRowsNext(s0.store, t.store, i);
    }

    /** Row `i` of the second half-step. */
    method SecondHalfRow(solve: (Tridiag, seq<Complex>) -> seq<Complex>, k: nat, i: nat,
                         ghost s0: AdiState, ghost t: AdiState)
      requires Valid() && SolveKeepsLength(solve) && k < p.nSteps && i < p.nR
      requires Shaped(s0, p) && Shaped(t, p) && SecondHalfTarget(s0, t, p, solve, k)
      requires State().(envelope := s0.envelope) == SecondHalfUpTo(s0, t, p, i)
      modifies w0, w1, f, store, axis
      ensures State().(envelope := s0.envelope) == SecondHalfUpTo(s0, t, p, i + 1)
    {
      RowTerms(k, i, s0, t);
      RowBlend(k, i, s0, t);
      RowSolve(solve, k, i, s0, t);
    }

    /** The row loop of the second half-step, towards a target given by its rows. */
    method SecondHalfRows(solve: (Tridiag, seq<Complex>) -> seq<Complex>, k: nat,
                          ghost s0: AdiState, ghost t: AdiState)
      requires Valid() && SolveKeepsLength(solve) && k < p.nSteps
      requires Shaped(s0, p) && Shaped(t, p) && SecondHalfTarget(s0, t, p, solve, k)
      requires State().(envelope := s0.envelope) == SecondHalfUpTo(s0, t, p, 0)
      modifies w0, w1, f, store, axis
      ensures State().(envelope := s0.envelope) == SecondHalfUpTo(s0, t, p, p.nR)
    {
      var i := 0;
      while i < p.nR
        invariant i <= p.nR
        invariant State().(envelope := s0.envelope) == SecondHalfUpTo(s0, t, p, i)
      {
        SecondHalfRow(solve, k, i, s0, t);
        i := i + 1;
      }
    }

    /** The second half-step. */
    method SecondHalf(solve: (Tridiag, seq<Complex>) -> seq<Complex>, k: nat)
      requires Valid() && SolveKeepsLength(solve) && k < p.nSteps
      modifies w0, w1, f, store, axis
      ensures State() == SecondHalfSolve(old(State()), p, solve, k, envelope == store)
    {
      ghost var s0 := State();
      ghost var aliased := envelope == store;
      ghost var t := SecondHalfSolve(s0, p, solve, k, aliased);
      SecondHalfSolveTarget(s0, p, solve, k, aliased);
      SecondHalfUpToEnds(s0, t, p, solve, k, aliased);
      SecondHalfRows(solve, k, s0, t);
      if aliased {
        assert State().envelope == State().store;
      } else {
        assert State().envelope == s0.envelope;
      }
    }

    /** The end of step `k`: shift the slots, rebind the envelope, record the on-axis row. */
    method Finish(k: nat)
      requires Valid() && k < p.nSteps
      modifies this, w0, axis
      ensures Valid() && envelope == store
      ensures State() == Commit(old(State()), p, k)
    {
      ShiftSlots();
      envelope := store;
      WriteRow(axis, k + 1, Row(store, p.axisNode));
      assert Row(store, p.axisNode) == Snapshot(store)[p.axisNode];
    }

    /** Step `k` of the propagation loop. */
    method Step(solve: (Tridiag, seq<Complex>) -> seq<Complex>, k: nat, ghost step: StepFn)
      requires Valid() && SolveKeepsLength(solve) && k < p.nSteps && Models(step, p, solve)
      modifies this, envelope, store, axis, b, c, f, w0, w1
      ensures Valid() && envelope == store
      ensures State() == step(old(State()), k)
    {
      ghost var s0 := State();
      FirstStages(solve, k);
      SecondStages(solve, k);
      assert Applied(s0, k);
    }

    /** Step `k` up to the radial products: the time half-step, the history shift and `b = R_r·c`. */
    method FirstStages(solve: (Tridiag, seq<Complex>) -> seq<Complex>, k: nat)
      requires Valid() && SolveKeepsLength(solve) && k < p.nSteps
      modifies b, c, f, w0, w1, axis
      ensures State() == RadialProducts(ShiftHistory(FirstHalfSolve(TimeProducts(old(State()), p), p, solve, k)), p)
    {
      TimeRhs();
      FirstHalf(solve, k);
      ShiftSlots();
      RadialRhs();
    }

    /** The rest of step `k`: the radial half-step, the history shift and the envelope update. */
    method SecondStages(solve: (Tridiag, seq<Complex>) -> seq<Complex>, k: nat)
      requires Valid() && SolveKeepsLength(solve) && k < p.nSteps
      modifies this, store, axis, f, w0, w1
      ensures Valid() && envelope == store
      ensures State() == Commit(SecondHalfSolve(old(State()), p, solve, k, false), p, k)
    {
      ghost var s4 := State();
      ghost var aliased := envelope == store;
      SecondHalf(solve, k);
      Finish(k);
      AliasingIsHarmless(s4, p, solve, k);
      assert State() == Commit(SecondHalfSolve(s4, p, solve, k, aliased), p, k);
    }

    /** The loop `for k in range(N_STEPS)`, for a step function pinned to `AdiStep`. */
    method Propagate(solve: (Tridiag, seq<Complex>) -> seq<Complex>, ghost step: StepFn)
      requires Valid() && SolveKeepsLength(solve) && Models(step, p, solve)
      modifies this, envelope, store, axis, b, c, f, w0, w1
      ensures Valid()
      ensures State() == Run(old(State()), step, p.nSteps)
    {
      ghost var s0 := State();
      ghost var e0 := envelope;
      var k := 0;
      while k < p.nSteps
        invariant k <= p.nSteps && Valid()
        invariant if k == 0 then envelope == e0 else envelope == store
        invariant State() == Run(s0, step, k)
      {
        Step(solve, k, step);
        k := k + 1;
      }
    }
  }
}
