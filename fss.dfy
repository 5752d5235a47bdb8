/**
 * The Fourier split-step solver (`SolverFSS`): its two Crank-Nicolson
 * diffraction operators, the dispersion phase, and one propagation step
 * over the (radial, time) grid.
 *
 * The routines the step calls but that live elsewhere (intensity,
 * ionization, density, Raman, nonlinear, fluence, radius, the FFT pair and
 * the banded solver) are parameters: each is a function from the slices it
 * is handed to the new contents of the slices it writes. Every one of them
 * is handed rows `[:-1]`, so the last radial row is written only by the
 * Raman-off fill, the envelope solve and the commit.
 */
module Fss {
  import opened Numerics
  import opened Grid
  import opened Tridiagonal

  /** What `compute_matrix` returns: a band array for "left", a DIA matrix otherwise. */
  datatype Operator = Banded(band: seq<seq<Complex>>) | Dia(t: Tridiag)

  /** `1 + 2c`, the main diagonal of the stencil. */
  function CoefMain(c: Complex): Complex { Add(One, Scale(2.0, c)) }

  /** `compute_matrix(n_r, m_p, coef_d)`. */
  function ComputeMatrix(nR: nat, side: string, c: Complex): (op: Operator)
    requires nR >= 2
    ensures op.Banded? <==> side == "left"
    ensures op.Banded? ==> IsBand(op.band) && |op.band[1]| == nR
    ensures op.Dia? ==> WellFormed(op.t) && Size(op.t) == nR
  {
    var diagMain := Full(nR, CoefMain(c));
    if side == "left" then
      Banded(ToBand(CnOperator(nR, c, diagMain[nR - 1 := One], Scale(-2.0, c))))
    else if side == "right" then
      Dia(CnOperator(nR, c, diagMain[nR - 1 := Zero], Scale(-2.0, c)))
    else
      Dia(CnOperator(nR, c, diagMain, Zero))
  }

  /** The matrix a banded solver reads out of the "left" band. */
  function LeftMatrix(nR: nat, c: Complex): (t: Tridiag)
    requires nR >= 2
    ensures WellFormed(t) && Size(t) == nR
  {
    FromBand(ComputeMatrix(nR, "left", c).band)
  }

  /**
   * The "left" band: `band[1+i-j][j] == A[i, j]` with both unused corners
   * zero; the axis row doubles the upper entry, the outer row is the
   * identity row, and interior rows carry the cylindrical stencil.
   */
  lemma LeftMatrixRows(nR: nat, c: Complex)
    requires nR >= 2
    ensures var band := ComputeMatrix(nR, "left", c).band;
      var a := LeftMatrix(nR, c);
      && band[0][0] == Zero && band[2][nR - 1] == Zero
      && (forall i, j :: 0 <= i < nR && 0 <= j < nR && i <= j + 1 && j <= i + 1 ==>
            band[1 + i - j][j] == Entry(a, i, j))
      && Entry(a, 0, 0) == CoefMain(c) && Entry(a, 0, 1) == Scale(-2.0, c)
      && IdentityRow(a, nR - 1)
      && (forall i :: 1 <= i <= nR - 2 ==>
            Entry(a, i, i) == CoefMain(c) &&
            Entry(a, i, i - 1) == CnLower(c, i) && Entry(a, i, i + 1) == CnUpper(c, i))
  {
    var main := Full(nR, CoefMain(c))[nR - 1 := One];
    var t := CnOperator(nR, c, main, Scale(-2.0, c));
    BandRoundTrip(t);
    CnOperatorEntries(nR, c, main, Scale(-2.0, c));
  }

  /** The "right" matrix: same axis row and stencil, and an all-zero outer row. */
  lemma RightMatrixRows(nR: nat, c: Complex)
    requires nR >= 2
    ensures var a := ComputeMatrix(nR, "right", c).t;
      && Entry(a, 0, 0) == CoefMain(c) && Entry(a, 0, 1) == Scale(-2.0, c)
      && ZeroRow(a, nR - 1)
      && (forall i :: 1 <= i <= nR - 2 ==>
            Entry(a, i, i) == CoefMain(c) &&
            Entry(a, i, i - 1) == CnLower(c, i) && Entry(a, i, i + 1) == CnUpper(c, i))
  {
    CnOperatorEntries(nR, c, Full(nR, CoefMain(c))[nR - 1 := Zero], Scale(-2.0, c));
  }

  /** Any other position gets no boundary edits: a zero axis entry and a stencil outer row. */
  lemma OtherSideRows(nR: nat, side: string, c: Complex)
    requires nR >= 2 && side != "left" && side != "right"
    ensures var a := ComputeMatrix(nR, side, c).t;
      && Entry(a, 0, 1) == Zero
      && (forall i :: 0 <= i < nR ==> Entry(a, i, i) == CoefMain(c))
  {
    CnOperatorEntries(nR, c, Full(nR, CoefMain(c)), Zero);
  }

  // ---------------------------------------------------------------------
  // set_operators

  /** The grid quantities `set_operators` reads. */
  datatype FssGrid = FssGrid(nR: nat, nT: nat, zRes: real, rRes: real, tRes: real, kN: real, kPP: real)

  predicate GridOk(g: FssGrid)
  {
    g.nR >= 2 && g.nT >= 1 && g.rRes != 0.0 && g.tRes != 0.0 && g.kN != 0.0
  }

  /** What `set_operators` stores: the dispersion factor and the two diffraction operators. */
  datatype Operators = Operators(dispExp: seq<Complex>, matrixLeft: seq<seq<Complex>>, matrixRight: Tridiag)

  predicate OperatorsOk(ops: Operators, nR: nat, nT: nat)
  {
    nR >= 2 && |ops.dispExp| == nT && IsBand(ops.matrixLeft) && |ops.matrixLeft[1]| == nR &&
    WellFormed(ops.matrixRight) && Size(ops.matrixRight) == nR
  }

  /** The integer frequency index `fftfreq` assigns to sample `k` of `n`. */
  function FftIndex(k: nat, n: nat): int
  {
    if k <= (n - 1) / 2 then k else k - n
  }

  /** Sample `n - k` has the opposite frequency of sample `k`, or the same one at the Nyquist index. */
  lemma FftIndexMirror(k: nat, n: nat)
    requires 1 <= k < n
    ensures FftIndex(n - k, n) == -FftIndex(k, n) || FftIndex(n - k, n) == FftIndex(k, n)
  {
  }

  function DiffCoef(g: FssGrid): real
    requires GridOk(g)
  {
    0.25 * g.zRes / (g.kN * (g.rRes * g.rRes))
  }

  function DispCoef(g: FssGrid): real
    requires GridOk(g)
  {
    -0.25 * g.zRes * g.kPP / (g.tRes * g.tRes)
  }

  /** The phase `-2·disp_c·(w·Δt)²` for the frequency with index `f`. */
  function PhaseOf(lib: Library, g: FssGrid, f: int): real
    requires GridOk(g)
  {
    var w := 2.0 * lib.pi * ((f as real) / (g.tRes * (g.nT as real)));
    -2.0 * DispCoef(g) * ((w * g.tRes) * (w * g.tRes))
  }

  lemma PhaseEven(lib: Library, g: FssGrid, f: int)
    requires GridOk(g)
    ensures PhaseOf(lib, g, -f) == PhaseOf(lib, g, f)
  {
    var d := g.tRes * (g.nT as real);
    assert (-f as real) / d == -((f as real) / d);
  }

  /** `set_operators()`. */
  function SetOperators(lib: Library, g: FssGrid): (ops: Operators)
    requires GridOk(g)
    ensures OperatorsOk(ops, g.nR, g.nT)
  {
    var diffC := DiffCoef(g);
    Operators(
      seq(g.nT, k requires 0 <= k < g.nT => lib.cis(PhaseOf(lib, g, FftIndex(k, g.nT)))),
      ComputeMatrix(g.nR, "left", Scale(diffC, I)).band,
      ComputeMatrix(g.nR, "right", Neg(Scale(diffC, I))).t)
  }

  /** The dispersion factor is the same for a frequency and its mirror image. */
  lemma DispersionSymmetric(lib: Library, g: FssGrid, k: nat)
    requires GridOk(g) && 1 <= k < g.nT
    ensures SetOperators(lib, g).dispExp[k] == SetOperators(lib, g).dispExp[g.nT - k]
  {
    FftIndexMirror(k, g.nT);
    PhaseEven(lib, g, FftIndex(k, g.nT));
  }

  /**
   * The operators are a Crank-Nicolson pair: built from `+1j·diff_c` and
   * `-1j·diff_c`, they add up to twice the identity on every row but the
   * last, where the left row is the identity row and the right row is zero.
   */
  lemma CrankNicolsonPair(lib: Library, g: FssGrid)
    requires GridOk(g)
    ensures var ops := SetOperators(lib, g);
      var l := FromBand(ops.matrixLeft);
      var r := ops.matrixRight;
      && l == LeftMatrix(g.nR, Scale(DiffCoef(g), I))
      && (forall i, j :: 0 <= i < g.nR - 1 && 0 <= j < g.nR ==>
            Add(Entry(l, i, j), Entry(r, i, j)) == if i == j then Of(2.0) else Zero)
      && IdentityRow(l, g.nR - 1) && ZeroRow(r, g.nR - 1)
  {
    var n := g.nR;
    var c := Scale(DiffCoef(g), I);
    LeftMatrixRows(n, c);
    RightMatrixRows(n, Neg(c));
    forall i, j | 0 <= i < n - 1 && 0 <= j < n
      ensures Add(Entry(LeftMatrix(n, c), i, j), Entry(ComputeMatrix(n, "right", Neg(c)).t, i, j))
              == if i == j then Of(2.0) else Zero
    {
      PairEntry(n, c, i, j);
    }
  }

  /** A coefficient and the one built from the opposite sign cancel. */
  lemma ScaleCancels(k: real, c: Complex)
    ensures Add(Scale(k, c), Scale(k, Neg(c))) == Zero
  {
  }

  /** One entry of the pair, for rows above the last. */
  lemma PairEntry(n: nat, c: Complex, i: nat, j: nat)
    requires n >= 2 && i < n - 1 && j < n
    ensures Add(Entry(LeftMatrix(n, c), i, j), Entry(ComputeMatrix(n, "right", Neg(c)).t, i, j))
            == if i == j then Of(2.0) else Zero
  {
    if i == j {
      PairDiagonal(n, c, i);
    } else if i == j + 1 {
      PairBelow(n, c, i);
    } else if j == 1 && i == 0 {
      PairAxis(n, c);
    } else if j == i + 1 {
      PairAbove(n, c, i);
    } else {
      assert Entry(LeftMatrix(n, c), i, j) == Zero;
    }
  }

  lemma PairDiagonal(n: nat, c: Complex, i: nat)
    requires n >= 2 && i < n - 1
    ensures Add(Entry(LeftMatrix(n, c), i, i), Entry(ComputeMatrix(n, "right", Neg(c)).t, i, i)) == Of(2.0)
  {
    LeftMatrixRows(n, c);
    RightMatrixRows(n, Neg(c));
  }

  lemma PairBelow(n: nat, c: Complex, i: nat)
    requires n >= 2 && 1 <= i < n - 1
    ensures Add(Entry(LeftMatrix(n, c), i, i - 1), Entry(ComputeMatrix(n, "right", Neg(c)).t, i, i - 1)) == Zero
  {
    LeftMatrixRows(n, c);
    RightMatrixRows(n, Neg(c));
    ScaleCancels(-(1.0 - 0.5 / (i as real)), c);
  }

  lemma PairAbove(n: nat, c: Complex, i: nat)
    requires n >= 2 && 1 <= i < n - 1
    ensures Add(Entry(LeftMatrix(n, c), i, i + 1), Entry(ComputeMatrix(n, "right", Neg(c)).t, i, i + 1)) == Zero
  {
    assert Entry(LeftMatrix(n, c), i, i + 1) == CnUpper(c, i) by { LeftMatrixRows(n, c); }
    assert Entry(ComputeMatrix(n, "right", Neg(c)).t, i, i + 1) == CnUpper(Neg(c), i) by {
      RightMatrixRows(n, Neg(c));
    }
    ScaleCancels(-(1.0 + 0.5 / (i as real)), c);
  }

  lemma PairAxis(n: nat, c: Complex)
    requires n >= 2
    ensures Add(Entry(LeftMatrix(n, c), 0, 1), Entry(ComputeMatrix(n, "right", Neg(c)).t, 0, 1)) == Zero
  {
    LeftMatrixRows(n, c);
    RightMatrixRows(n, Neg(c));
    ScaleCancels(-2.0, c);
  }

  // ---------------------------------------------------------------------
  // The state of a step, and what one step does to it.

  /** The contents of the solver's arrays. */
  datatype FssState = FssState(
    envelope: Mat<Complex>, envelopeNext: Mat<Complex>, envelopeSplit: Mat<Complex>,
    nonlinear: Mat<Complex>,
    intensity: Mat<real>, ionRate: Mat<real>, ionSum: Mat<real>, density: Mat<real>,
    raman: Mat<real>, draman: Mat<real>,
    fluence: seq<real>, radius: seq<real>)

  predicate Shaped(s: FssState, nR: nat, nT: nat)
  {
    && nR >= 2
    && IsMat(s.envelope, nR, nT) && IsMat(s.envelopeNext, nR, nT)
    && IsMat(s.envelopeSplit, nR, nT) && IsMat(s.nonlinear, nR, nT)
    && IsMat(s.intensity, nR, nT) && IsMat(s.ionRate, nR, nT) && IsMat(s.ionSum, nR, nT)
    && IsMat(s.density, nR, nT) && IsMat(s.raman, nR, nT) && IsMat(s.draman, nR, nT)
    && |s.fluence| == nR
  }

  /** The solver's method choices (`method_d`, `method_r`, `method_nl`, `use_raman`). */
  datatype Settings = Settings(methodD: string, methodR: string, methodNl: string, useRaman: bool)

  /**
   * The routines `solve_step` calls. Each maps the slices it is handed to
   * entry (i, j) of the slice it writes; `intensityF` is the value
   * `compute_intensity` returns; `solve` is `solve_banded`.
   */
  datatype Callees = Callees(
    intensity: (Mat<Complex>, Mat<real>, nat, nat) -> real,
    intensityF: (Mat<Complex>, Mat<real>) -> Mat<real>,
    ionization: (Mat<real>, Mat<real>, Mat<real>, nat, nat) -> (real, real),
    densityRk4: (Mat<real>, Mat<real>, Mat<real>, nat, nat) -> real,
    density: (Mat<real>, Mat<real>, Mat<real>, string, nat, nat) -> real,
    ramanRk4: (Mat<real>, Mat<real>, Mat<real>, nat, nat) -> (real, real),
    raman: (Mat<real>, Mat<real>, string, nat, nat) -> real,
    nonlinearRk4: (Mat<Complex>, Mat<real>, Mat<real>, Mat<real>, Mat<Complex>, nat, nat) -> Complex,
    fluence: (Mat<Complex>, seq<real>, nat) -> real,
    radius: (seq<real>, seq<real>, nat) -> real,
    fft: (Mat<Complex>, nat, nat) -> Complex,
    ifft: (Mat<Complex>, nat, nat) -> Complex,
    solve: (Tridiag, seq<Complex>) -> seq<Complex>)

  // What each callee writes, as a function of what it reads.

  function IntensityAt(cal: Callees, env: Mat<Complex>, inten: Mat<real>): (nat, nat) -> real
    requires |env| >= 1 && |inten| >= 1
  {
    var e, i0 := Top(env), Top(inten);
    (i: nat, j: nat) => cal.intensity(e, i0, i, j)
  }

  function IonRateAt(cal: Callees, inten: Mat<real>, rate: Mat<real>, sum: Mat<real>): (nat, nat) -> real
    requires |inten| >= 1 && |rate| >= 1 && |sum| >= 1
  {
    var a, b, c := Top(inten), Top(rate), Top(sum);
    (i: nat, j: nat) => cal.ionization(a, b, c, i, j).0
  }

  function IonSumAt(cal: Callees, inten: Mat<real>, rate: Mat<real>, sum: Mat<real>): (nat, nat) -> real
    requires |inten| >= 1 && |rate| >= 1 && |sum| >= 1
  {
    var a, b, c := Top(inten), Top(rate), Top(sum);
    (i: nat, j: nat) => cal.ionization(a, b, c, i, j).1
  }

  function DensityAt(cal: Callees, st: Settings, intenF: Mat<real>, inten: Mat<real>, dens: Mat<real>,
                     rate: Mat<real>): (nat, nat) -> real
    requires |inten| >= 1 && |dens| >= 1 && |rate| >= 1
  {
    var a, b, c := Top(inten), Top(dens), Top(rate);
    if st.methodD == "RK4" then (i: nat, j: nat) => cal.densityRk4(a, b, c, i, j)
    else (i: nat, j: nat) => cal.density(intenF, b, c, st.methodD, i, j)
  }

  function RamanAt(cal: Callees, st: Settings, intenF: Mat<real>, ram: Mat<real>, dram: Mat<real>,
                   inten: Mat<real>): (nat, nat) -> real
    requires |ram| >= 1 && |dram| >= 1 && |inten| >= 1
  {
    var a, b, c := Top(ram), Top(dram), Top(inten);
    if st.methodR == "RK4" then (i: nat, j: nat) => cal.ramanRk4(a, b, c, i, j).0
    else (i: nat, j: nat) => cal.raman(a, intenF, st.methodR, i, j)
  }

  function DRamanAt(cal: Callees, ram: Mat<real>, dram: Mat<real>, inten: Mat<real>): (nat, nat) -> real
    requires |ram| >= 1 && |dram| >= 1 && |inten| >= 1
  {
    var a, b, c := Top(ram), Top(dram), Top(inten);
    (i: nat, j: nat) => cal.ramanRk4(a, b, c, i, j).1
  }

  function ZeroAt(): (nat, nat) -> real { (i: nat, j: nat) => 0.0 }

  /** `disp_exp * ifft(envelope[:-1, :])`, row by row. */
  function Dispersed(cal: Callees, dispExp: seq<Complex>, env: Mat<Complex>): (p: Mat<Complex>)
    requires |env| >= 1
    ensures |p| == |env| - 1
  {
    var e := Top(env);
    seq(|e|, i requires 0 <= i < |e| =>
      seq(|dispExp|, j requires 0 <= j < |dispExp| => Mul(dispExp[j], cal.ifft(e, i, j))))
  }

  function DispersionAt(cal: Callees, dispExp: seq<Complex>, env: Mat<Complex>): (nat, nat) -> Complex
    requires |env| >= 1
  {
    var p := Dispersed(cal, dispExp, env);
    (i: nat, j: nat) => cal.fft(p, i, j)
  }

  function NonlinearAt(cal: Callees, split: Mat<Complex>, dens: Mat<real>, ram: Mat<real>, rate: Mat<real>,
                       nl: Mat<Complex>): (nat, nat) -> Complex
    requires |split| >= 1 && |dens| >= 1 && |ram| >= 1 && |rate| >= 1 && |nl| >= 1
  {
    var a, b, c, d, e := Top(split), Top(dens), Top(ram), Top(rate), Top(nl);
    (i: nat, j: nat) => cal.nonlinearRk4(a, b, c, d, e, i, j)
  }

  /** Column `j` of `matrix_right @ envelope_split + nonlinear`. */
  function EnvelopeRhs(right: Tridiag, split: Mat<Complex>, nl: Mat<Complex>, nT: nat, j: nat): (rhs: seq<Complex>)
    requires WellFormed(right) && IsMat(split, Size(right), nT) && IsMat(nl, Size(right), nT) && j < nT
    ensures |rhs| == Size(right)
  {
    AddVec(MatVec(right, Col(split, j)), Col(nl, j))
  }

  /** Entry (i, j) of what `solve_banded` returns for that right-hand side. */
  function SolvedAt(cal: Callees, ops: Operators, split: Mat<Complex>, nl: Mat<Complex>, nT: nat): (nat, nat) -> Complex
    requires OperatorsOk(ops, Size(ops.matrixRight), nT)
    requires IsMat(split, Size(ops.matrixRight), nT) && IsMat(nl, Size(ops.matrixRight), nT)
  {
    (i: nat, j: nat) =>
      if j < nT then
        var x := cal.solve(FromBand(ops.matrixLeft), EnvelopeRhs(ops.matrixRight, split, nl, nT, j));
        if i < |x| then x[i] else Zero
      else Zero
  }

  function FluenceAt(cal: Callees, next: Mat<Complex>, fl: seq<real>): nat -> real
    requires |next| >= 1 && |fl| >= 1
  {
    var a, b := Top(next), fl[..|fl| - 1];
    (i: nat) => cal.fluence(a, b, i)
  }

  function RadiusAt(cal: Callees, fl: seq<real>, rad: seq<real>): nat -> real
    requires |fl| >= 1
  {
    var a := fl[..|fl| - 1];
    (q: nat) => cal.radius(a, rad, q)
  }

  // The stages of `solve_step`, in the order the code runs them.

  /** `compute_intensity` then `compute_ionization`, on rows `[:-1]`. */
  function AfterIonization(s: FssState, cal: Callees, nR: nat, nT: nat): (r: FssState)
    requires Shaped(s, nR, nT)
    ensures Shaped(r, nR, nT)
  {
    var inten := Overlay(s.intensity, nR - 1, IntensityAt(cal, s.envelope, s.intensity));
    s.(intensity := inten,
       ionRate := Overlay(s.ionRate, nR - 1, IonRateAt(cal, inten, s.ionRate, s.ionSum)),
       ionSum := Overlay(s.ionSum, nR - 1, IonSumAt(cal, inten, s.ionRate, s.ionSum)))
  }

  /** The density update: `compute_density_rk4` for "RK4", `compute_density` otherwise. */
  function AfterDensity(s: FssState, cal: Callees, st: Settings, intenF: Mat<real>, nR: nat, nT: nat): (r: FssState)
    requires Shaped(s, nR, nT)
    ensures Shaped(r, nR, nT)
  {
    s.(density := Overlay(s.density, nR - 1, DensityAt(cal, st, intenF, s.intensity, s.density, s.ionRate)))
  }

  /** The Raman update, or `raman_rt.fill(0.0)` when Raman is off. */
  function AfterRaman(s: FssState, cal: Callees, st: Settings, intenF: Mat<real>, nR: nat, nT: nat): (r: FssState)
    requires Shaped(s, nR, nT)
    ensures Shaped(r, nR, nT)
  {
    if !st.useRaman then
      s.(raman := Overlay(s.raman, nR, ZeroAt()))
    else if st.methodR == "RK4" then
      s.(raman := Overlay(s.raman, nR - 1, RamanAt(cal, st, intenF, s.raman, s.draman, s.intensity)),
         draman := Overlay(s.draman, nR - 1, DRamanAt(cal, s.raman, s.draman, s.intensity)))
    else
      s.(raman := Overlay(s.raman, nR - 1, RamanAt(cal, st, intenF, s.raman, s.draman, s.intensity)))
  }

  /** `compute_dispersion()`: rows `[:-1]` of the split envelope. */
  function AfterDispersion(s: FssState, cal: Callees, ops: Operators, nR: nat, nT: nat): (r: FssState)
    requires Shaped(s, nR, nT)
    ensures Shaped(r, nR, nT)
  {
    s.(envelopeSplit := Overlay(s.envelopeSplit, nR - 1, DispersionAt(cal, ops.dispExp, s.envelope)))
  }

  /** `compute_nonlinear_rk4` for "RK4"; any other method leaves `nonlinear_rt` as it was. */
  function AfterNonlinear(s: FssState, cal: Callees, st: Settings, nR: nat, nT: nat): (r: FssState)
    requires Shaped(s, nR, nT)
    ensures Shaped(r, nR, nT)
  {
    if st.methodNl == "RK4" then
      s.(nonlinear := Overlay(s.nonlinear, nR - 1,
           NonlinearAt(cal, s.envelopeSplit, s.density, s.raman, s.ionRate, s.nonlinear)))
    else s
  }

  /** `compute_envelope()`: the whole of `envelope_next_rt`. */
  function AfterEnvelope(s: FssState, cal: Callees, ops: Operators, nR: nat, nT: nat): (r: FssState)
    requires Shaped(s, nR, nT) && OperatorsOk(ops, nR, nT)
    ensures Shaped(r, nR, nT)
  {
    s.(envelopeNext := Overlay(s.envelopeNext, nR, SolvedAt(cal, ops, s.envelopeSplit, s.nonlinear, nT)))
  }

  /** `compute_fluence` on rows `[:-1]`, then `compute_radius`. */
  function AfterDiagnostics(s: FssState, cal: Callees, nR: nat, nT: nat): (r: FssState)
    requires Shaped(s, nR, nT)
    ensures Shaped(r, nR, nT)
  {
    var fl := OverlaySeq(s.fluence, nR - 1, FluenceAt(cal, s.envelopeNext, s.fluence));
    s.(fluence := fl, radius := OverlaySeq(s.radius, |s.radius|, RadiusAt(cal, fl, s.radius)))
  }

  /** The tuple slice assignment: both buffers end up holding the new envelope. */
  function Commit(s: FssState): FssState
  {
    s.(envelope := s.envelopeNext)
  }

  /** One call of `solve_step()`. */
  function StepSpec(s: FssState, cal: Callees, ops: Operators, st: Settings, nR: nat, nT: nat): (r: FssState)
    requires Shaped(s, nR, nT) && OperatorsOk(ops, nR, nT)
    ensures Shaped(r, nR, nT)
  {
    var intenF := cal.intensityF(Top(s.envelope), Top(s.intensity));
    var s1 := AfterIonization(s, cal, nR, nT);
    var s2 := AfterDensity(s1, cal, st, intenF, nR, nT);
    var s3 := AfterRaman(s2, cal, st, intenF, nR, nT);
    var s4 := AfterDispersion(s3, cal, ops, nR, nT);
    var s5 := AfterNonlinear(s4, cal, st, nR, nT);
    var s6 := AfterEnvelope(s5, cal, ops, nR, nT);
    Commit(AfterDiagnostics(s6, cal, nR, nT))
  }

  // ---------------------------------------------------------------------
  // What a step promises.

  /** After a step the two envelope buffers hold the same values. */
  lemma CommitLeavesBuffersEqual(s: FssState, cal: Callees, ops: Operators, st: Settings, nR: nat, nT: nat)
    requires Shaped(s, nR, nT) && OperatorsOk(ops, nR, nT)
    ensures var r := StepSpec(s, cal, ops, st, nR, nT); r.envelope == r.envelopeNext
  {
  }

  /** With Raman off, `raman_rt` is zero everywhere after a step, its last row included. */
  lemma RamanOffZeroes(s: FssState, cal: Callees, ops: Operators, st: Settings, nR: nat, nT: nat)
    requires Shaped(s, nR, nT) && OperatorsOk(ops, nR, nT) && !st.useRaman
    ensures var r := StepSpec(s, cal, ops, st, nR, nT);
      forall i, j :: 0 <= i < nR && 0 <= j < nT ==> r.raman[i][j] == 0.0
  {
  }

  /** A nonlinear method other than "RK4" leaves `nonlinear_rt` unchanged. */
  lemma NonRk4KeepsNonlinear(s: FssState, cal: Callees, ops: Operators, st: Settings, nR: nat, nT: nat)
    requires Shaped(s, nR, nT) && OperatorsOk(ops, nR, nT) && st.methodNl != "RK4"
    ensures StepSpec(s, cal, ops, st, nR, nT).nonlinear == s.nonlinear
  {
  }

  /**
   * The kernels only see rows `[:-1]`: the last radial row of intensity,
   * ionization rate and sum, density, derivative of the Raman response, and
   * split envelope is the one the step started with; the Raman response
   * keeps it too unless Raman is off.
   */
  lemma LastRowUntouched(s: FssState, cal: Callees, ops: Operators, st: Settings, nR: nat, nT: nat)
    requires Shaped(s, nR, nT) && OperatorsOk(ops, nR, nT)
    ensures var r := StepSpec(s, cal, ops, st, nR, nT);
      && r.intensity[nR - 1] == s.intensity[nR - 1]
      && r.ionRate[nR - 1] == s.ionRate[nR - 1]
      && r.ionSum[nR - 1] == s.ionSum[nR - 1]
      && r.density[nR - 1] == s.density[nR - 1]
      && r.draman[nR - 1] == s.draman[nR - 1]
      && r.envelopeSplit[nR - 1] == s.envelopeSplit[nR - 1]
      && (st.useRaman ==> r.raman[nR - 1] == s.raman[nR - 1])
      && r.fluence[nR - 1] == s.fluence[nR - 1]
  {
  }

  /**
   * Every column of the new envelope solves the Crank-Nicolson system
   * `L·x = R·split + nonlinear`, where `split` and `nonlinear` are the
   * values the dispersion and nonlinear stages of the same step left.
   */
  lemma EnvelopeSolvesSystem(s: FssState, cal: Callees, ops: Operators, st: Settings, nR: nat, nT: nat, j: nat)
    requires Shaped(s, nR, nT) && OperatorsOk(ops, nR, nT) && j < nT
    requires Solves(cal.solve, FromBand(ops.matrixLeft))
    ensures var intenF := cal.intensityF(Top(s.envelope), Top(s.intensity));
      var s5 := AfterNonlinear(AfterDispersion(AfterRaman(AfterDensity(AfterIonization(s, cal, nR, nT),
                  cal, st, intenF, nR, nT), cal, st, intenF, nR, nT), cal, ops, nR, nT), cal, st, nR, nT);
      var r := StepSpec(s, cal, ops, st, nR, nT);
      MatVec(FromBand(ops.matrixLeft), Col(r.envelope, j)) ==
        EnvelopeRhs(ops.matrixRight, s5.envelopeSplit, s5.nonlinear, nT, j)
  {
    var intenF := cal.intensityF(Top(s.envelope), Top(s.intensity));
    var s5 := AfterNonlinear(AfterDispersion(AfterRaman(AfterDensity(AfterIonization(s, cal, nR, nT),
                cal, st, intenF, nR, nT), cal, st, intenF, nR, nT), cal, ops, nR, nT), cal, st, nR, nT);
    EnvelopeColumnSolves(s5, cal, ops, nR, nT, j);
  }

  /** The column-`j` half of `EnvelopeSolvesSystem`, for any state before `compute_envelope()`. */
  lemma EnvelopeColumnSolves(s5: FssState, cal: Callees, ops: Operators, nR: nat, nT: nat, j: nat)
    requires Shaped(s5, nR, nT) && OperatorsOk(ops, nR, nT) && j < nT
    requires Solves(cal.solve, FromBand(ops.matrixLeft))
    ensures MatVec(FromBand(ops.matrixLeft), Col(Commit(AfterDiagnostics(AfterEnvelope(s5, cal, ops, nR, nT),
              cal, nR, nT)).envelope, j)) == EnvelopeRhs(ops.matrixRight, s5.envelopeSplit, s5.nonlinear, nT, j)
  {
    var l := FromBand(ops.matrixLeft);
    var rhs := EnvelopeRhs(ops.matrixRight, s5.envelopeSplit, s5.nonlinear, nT, j);
    assert |cal.solve(l, rhs)| == nR && MatVec(l, cal.solve(l, rhs)) == rhs;
    CommittedEnvelope(s5, cal, ops, nR, nT);
    SolvedColumn(s5, cal, ops, nR, nT, j);
  }

  /** The envelope `solve_step()` commits is the one `compute_envelope()` wrote. */
  lemma CommittedEnvelope(s5: FssState, cal: Callees, ops: Operators, nR: nat, nT: nat)
    requires Shaped(s5, nR, nT) && OperatorsOk(ops, nR, nT)
    ensures Commit(AfterDiagnostics(AfterEnvelope(s5, cal, ops, nR, nT), cal, nR, nT)).envelope
      == AfterEnvelope(s5, cal, ops, nR, nT).envelopeNext
  {
  }

  /** Column `j` of what `compute_envelope()` writes is what `solve_banded` returns for column `j`. */
  lemma SolvedColumn(s5: FssState, cal: Callees, ops: Operators, nR: nat, nT: nat, j: nat)
    requires Shaped(s5, nR, nT) && OperatorsOk(ops, nR, nT) && j < nT
    requires |cal.solve(FromBand(ops.matrixLeft), EnvelopeRhs(ops.matrixRight, s5.envelopeSplit, s5.nonlinear, nT, j))| == nR
    ensures Col(AfterEnvelope(s5, cal, ops, nR, nT).envelopeNext, j)
      == cal.solve(FromBand(ops.matrixLeft), EnvelopeRhs(ops.matrixRight, s5.envelopeSplit, s5.nonlinear, nT, j))
  {
    var x := cal.solve(FromBand(ops.matrixLeft), EnvelopeRhs(ops.matrixRight, s5.envelopeSplit, s5.nonlinear, nT, j));
    var e := AfterEnvelope(s5, cal, ops, nR, nT).envelopeNext;
    forall i | 0 <= i < nR
      ensures e[i][j] == x[i]
    {
      assert e[i][j] == SolvedAt(cal, ops, s5.envelopeSplit, s5.nonlinear, nT)(i, j);
    }
    assert Col(e, j) == x;
  }

  // ---------------------------------------------------------------------
  // The solver object.

  class SolverFss {
    const nR: nat
    const nT: nat
    const envelope: array2<Complex>
    const envelopeNext: array2<Complex>
    const envelopeSplit: array2<Complex>
    const nonlinear: array2<Complex>
    const intensity: array2<real>
    const ionRate: array2<real>
    const ionSum: array2<real>
    const density: array2<real>
    const raman: array2<real>
    const draman: array2<real>
    const fluence: array<real>
    const radius: array<real>
    const ops: Operators
    const settings: Settings

    ghost predicate Valid()
      reads this
    {
      && OperatorsOk(ops, nR, nT)
      && envelope.Length0 == nR && envelope.Length1 == nT
      && envelopeNext.Length0 == nR && envelopeNext.Length1 == nT
      && envelopeSplit.Length0 == nR && envelopeSplit.Length1 == nT
      && nonlinear.Length0 == nR && nonlinear.Length1 == nT
      && intensity.Length0 == nR && intensity.Length1 == nT
      && ionRate.Length0 == nR && ionRate.Length1 == nT
      && ionSum.Length0 == nR && ionSum.Length1 == nT
      && density.Length0 == nR && density.Length1 == nT
      && raman.Length0 == nR && raman.Length1 == nT
      && draman.Length0 == nR && draman.Length1 == nT
      && fluence.Length == nR
      && envelope != envelopeNext && envelope != envelopeSplit && envelope != nonlinear
      && envelopeNext != envelopeSplit && envelopeNext != nonlinear && envelopeSplit != nonlinear
      && intensity != ionRate && intensity != ionSum && intensity != density
      && intensity != raman && intensity != draman
      && ionRate != ionSum && ionRate != density && ionRate != raman && ionRate != draman
      && ionSum != density && ionSum != raman && ionSum != draman
      && density != raman && density != draman && raman != draman
      && fluence != radius
    }

    /** The values held in the solver's arrays. */
    function State(): (s: FssState)
      reads this, envelope, envelopeNext, envelopeSplit, nonlinear, intensity, ionRate, ionSum
      reads density, raman, draman, fluence, radius
      requires Valid()
      ensures Shaped(s, nR, nT)
    {
      FssState(Snapshot(envelope), Snapshot(envelopeNext), Snapshot(envelopeSplit), Snapshot(nonlinear),
               Snapshot(intensity), Snapshot(ionRate), Snapshot(ionSum), Snapshot(density),
               Snapshot(raman), Snapshot(draman), fluence[..], radius[..])
    }

    /**
     * The arrays are fresh; their contents are left unspecified (the base
     * class and the initial conditions that fill them are not part of this
     * model). The operators are those of `set_operators`.
     */
    constructor (lib: Library, g: FssGrid, st: Settings, radiusLength: nat)
      requires GridOk(g)
      ensures Valid() && nR == g.nR && nT == g.nT
      ensures ops == SetOperators(lib, g) && settings == st
      ensures fresh(envelope) && fresh(envelopeNext) && fresh(envelopeSplit) && fresh(nonlinear)
      ensures fresh(intensity) && fresh(ionRate) && fresh(ionSum) && fresh(density)
      ensures fresh(raman) && fresh(draman) && fresh(fluence) && fresh(radius)
    {
      nR, nT := g.nR, g.nT;
      ops := SetOperators(lib, g);
      settings := st;
      envelope := new Complex[g.nR, g.nT];
      envelopeNext := new Complex[g.nR, g.nT];
      envelopeSplit := new Complex[g.nR, g.nT];
      nonlinear := new Complex[g.nR, g.nT];
      intensity := new real[g.nR, g.nT];
      ionRate := new real[g.nR, g.nT];
      ionSum := new real[g.nR, g.nT];
      density := new real[g.nR, g.nT];
      raman := new real[g.nR, g.nT];
      draman := new real[g.nR, g.nT];
      fluence := new real[g.nR];
      radius := new real[radiusLength];
    }

    /** `compute_dispersion()`. */
    method ComputeDispersion(cal: Callees)
      requires Valid()
      modifies envelopeSplit
      ensures State() == AfterDispersion(old(State()), cal, ops, nR, nT)
    {
      WriteRows(envelopeSplit, nR - 1, DispersionAt(cal, ops.dispExp, Snapshot(envelope)));
    }

    /** `compute_envelope()`. */
    method ComputeEnvelope(cal: Callees)
      requires Valid()
      modifies envelopeNext
      ensures State() == AfterEnvelope(old(State()), cal, ops, nR, nT)
    {
      WriteRows(envelopeNext, nR, SolvedAt(cal, ops, Snapshot(envelopeSplit), Snapshot(nonlinear), nT));
    }

    /** `compute_intensity` and then `compute_ionization`, both on rows `[:-1]`. */
    method RunIonization(cal: Callees)
      requires Valid()
      modifies intensity, ionRate, ionSum
      ensures State() == AfterIonization(old(State()), cal, nR, nT)
    {
      SetIntensityRows(IntensityAt(cal, Snapshot(envelope), Snapshot(intensity)));
      var inten, rate0, sum0 := Snapshot(intensity), Snapshot(ionRate), Snapshot(ionSum);
      SetIonRateRows(IonRateAt(cal, inten, rate0, sum0));
      SetIonSumRows(IonSumAt(cal, inten, rate0, sum0));
    }

    /** `intensity_rt[:-1, :] = ...`. */
    method SetIntensityRows(f: (nat, nat) -> real)
      requires Valid()
      modifies intensity
      ensures var s := old(State()); State() == s.(intensity := Overlay(s.intensity, nR - 1, f))
    {
      WriteRows(intensity, nR - 1, f);
    }

    /** `ionization_rate[:-1, :] = ...`. */
    method SetIonRateRows(f: (nat, nat) -> real)
      requires Valid()
      modifies ionRate
      ensures var s := old(State()); State() == s.(ionRate := Overlay(s.ionRate, nR - 1, f))
    {
      WriteRows(ionRate, nR - 1, f);
    }

    /** `ionization_sum[:-1, :] = ...`. */
    method SetIonSumRows(f: (nat, nat) -> real)
      requires Valid()
      modifies ionSum
      ensures var s := old(State()); State() == s.(ionSum := Overlay(s.ionSum, nR - 1, f))
    {
      WriteRows(ionSum, nR - 1, f);
    }

    /** The density branch on `method_d`. */
    method RunDensity(cal: Callees, intenF: Mat<real>)
      requires Valid()
      modifies density
      ensures State() == AfterDensity(old(State()), cal, settings, intenF, nR, nT)
    {
      WriteRows(density, nR - 1,
        DensityAt(cal, settings, intenF, Snapshot(intensity), Snapshot(density), Snapshot(ionRate)));
    }

    /** The Raman branch on `use_raman` and `method_r`. */
    method RunRaman(cal: Callees, intenF: Mat<real>)
      requires Valid()
      modifies raman, draman
      ensures State() == AfterRaman(old(State()), cal, settings, intenF, nR, nT)
    {
      if settings.useRaman {
        var ram0, dram0, inten := Snapshot(raman), Snapshot(draman), Snapshot(intensity);
        SetRamanRows(nR - 1, RamanAt(cal, settings, intenF, ram0, dram0, inten));
        if settings.methodR == "RK4" {
          SetDRamanRows(DRamanAt(cal, ram0, dram0, inten));
        }
      } else {
        SetRamanRows(nR, ZeroAt());
      }
    }

    /** `raman_rt[:k, :] = ...`. */
    method SetRamanRows(k: nat, f: (nat, nat) -> real)
      requires Valid() && k <= nR
      modifies raman
      ensures var s := old(State()); State() == s.(raman := Overlay(s.raman, k, f))
    {
      WriteRows(raman, k, f);
    }

    /** `draman_rt[:-1, :] = ...`. */
    method SetDRamanRows(f: (nat, nat) -> real)
      requires Valid()
      modifies draman
      ensures var s := old(State()); State() == s.(draman := Overlay(s.draman, nR - 1, f))
    {
      WriteRows(draman, nR - 1, f);
    }

    /** The nonlinear branch on `method_nl`. */
    method RunNonlinear(cal: Callees)
      requires Valid()
      modifies nonlinear
      ensures State() == AfterNonlinear(old(State()), cal, settings, nR, nT)
    {
      if settings.methodNl == "RK4" {
        WriteRows(nonlinear, nR - 1, NonlinearAt(cal, Snapshot(envelopeSplit), Snapshot(density),
          Snapshot(raman), Snapshot(ionRate), Snapshot(nonlinear)));
      }
    }

    /** `compute_fluence` on rows `[:-1]`, then `compute_radius`. */
    method RunDiagnostics(cal: Callees)
      requires Valid()
      modifies fluence, radius
      ensures State() == AfterDiagnostics(old(State()), cal, nR, nT)
    {
      WritePrefix(fluence, nR - 1, FluenceAt(cal, Snapshot(envelopeNext), fluence[..]));
      var fl := fluence[..];
      WritePrefix(radius, radius.Length, RadiusAt(cal, fl, radius[..]));
    }

    /**
     * `envelope_rt[:], envelope_next_rt[:] = envelope_next_rt, envelope_rt`:
     * the right-hand side names the two arrays, so the first copy moves the
     * new envelope in and the second copies it back onto itself.
     */
    method CommitStep()
      requires Valid()
      modifies envelope
      ensures State() == Commit(old(State()))
    {
      CopyInto(envelopeNext, envelope);
    }

    /** `solve_step()`. */
    method SolveStep(cal: Callees)
      requires Valid()
      modifies envelope, envelopeNext, envelopeSplit, nonlinear, intensity, ionRate, ionSum
      modifies density, raman, draman, fluence, radius
      ensures State() == StepSpec(old(State()), cal, ops, settings, nR, nT)
    {
      var intenF := cal.intensityF(Top(Snapshot(envelope)), Top(Snapshot(intensity)));
      RunIonization(cal);
      RunDensity(cal, intenF);
      RunRaman(cal, intenF);
      ComputeDispersion(cal);
      RunNonlinear(cal);
      ComputeEnvelope(cal);
      RunDiagnostics(cal);
      CommitStep();
    }
  }
}
