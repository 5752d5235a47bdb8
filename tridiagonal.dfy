/**
 * Tridiagonal operators as the propagators build them: three stored
 * diagonals (`lower` holds A[k+1, k], `upper` holds A[k, k+1]), the matrix
 * they stand for, their product with a vector, and the `(3, n)` band layout
 * that a banded solver reads.
 */
module Tridiagonal {
  import opened Numerics

  datatype Tridiag = Tridiag(lower: seq<Complex>, main: seq<Complex>, upper: seq<Complex>)

  predicate WellFormed(t: Tridiag)
  {
    |t.main| >= 1 && |t.lower| == |t.main| - 1 && |t.upper| == |t.main| - 1
  }

  function Size(t: Tridiag): nat { |t.main| }

  /** The matrix entry A[i, j]; zero off the three diagonals. */
  function Entry(t: Tridiag, i: nat, j: nat): Complex
    requires WellFormed(t) && i < Size(t) && j < Size(t)
  {
    if i == j then t.main[i]
    else if i == j + 1 then t.lower[j]
    else if j == i + 1 then t.upper[i]
    else Zero
  }

  /** Row `i` of A·x, read from the three stored diagonals. */
  function RowTimes(t: Tridiag, x: seq<Complex>, i: nat): Complex
    requires WellFormed(t) && |x| == Size(t) && i < Size(t)
  {
    var below := if i > 0 then Mul(t.lower[i - 1], x[i - 1]) else Zero;
    var above := if i + 1 < Size(t) then Mul(t.upper[i], x[i + 1]) else Zero;
    Add(Add(below, Mul(t.main[i], x[i])), above)
  }

  /** The sparse product A·x (what `@` computes for a tridiagonal matrix). */
  function MatVec(t: Tridiag, x: seq<Complex>): (y: seq<Complex>)
    requires WellFormed(t) && |x| == Size(t)
    ensures |y| == |x|
  {
    seq(|x|, i requires 0 <= i < |x| => RowTimes(t, x, i))
  }

  /** The dense reference: sum over j < m of A[i, j]·x[j]. */
  function DenseRow(t: Tridiag, x: seq<Complex>, i: nat, m: nat): Complex
    requires WellFormed(t) && |x| == Size(t) && i < Size(t) && m <= Size(t)
  {
    if m == 0 then Zero else Add(DenseRow(t, x, i, m - 1), Mul(Entry(t, i, m - 1), x[m - 1]))
  }

  /** The part of row `i` of the banded product that uses columns below `m`. */
  function BandPrefix(t: Tridiag, x: seq<Complex>, i: nat, m: nat): Complex
    requires WellFormed(t) && |x| == Size(t) && i < Size(t) && m <= Size(t)
  {
    var below := if i > 0 && i - 1 < m then Mul(t.lower[i - 1], x[i - 1]) else Zero;
    var diag := if i < m then Mul(t.main[i], x[i]) else Zero;
    var above := if i + 1 < m then Mul(t.upper[i], x[i + 1]) else Zero;
    Add(Add(below, diag), above)
  }

  lemma {:induction false} DenseRowIsBandPrefix(t: Tridiag, x: seq<Complex>, i: nat, m: nat)
    requires WellFormed(t) && |x| == Size(t) && i < Size(t) && m <= Size(t)
    ensures DenseRow(t, x, i, m) == BandPrefix(t, x, i, m)
  {
    if m > 0 {
      var j := m - 1;
      DenseRowIsBandPrefix(t, x, i, j);
      var prev, next := BandPrefix(t, x, i, j), BandPrefix(t, x, i, m);
      var term := Mul(Entry(t, i, j), x[j]);
      assert DenseRow(t, x, i, m) == Add(prev, term);
      if j + 1 == i {
        assert prev.re == 0.0 && prev.im == 0.0;
        assert next.re == term.re && next.im == term.im;
      } else if j == i {
        var below := if i > 0 then Mul(t.lower[i - 1], x[i - 1]) else Zero;
        assert prev.re == below.re && prev.im == below.im;
        assert next.re == below.re + term.re && next.im == below.im + term.im;
      } else if j == i + 1 {
        assert next.re == prev.re + term.re && next.im == prev.im + term.im;
      } else {
        assert Entry(t, i, j) == Zero;
        assert term.re == 0.0 && term.im == 0.0;
        assert next == prev;
      }
    }
  }

  /** Row `i` of the matrix is zero in every column. */
  predicate ZeroRow(t: Tridiag, i: nat)
    requires WellFormed(t) && i < Size(t)
  {
    forall j :: 0 <= j < Size(t) ==> Entry(t, i, j) == Zero
  }

  /** Row `i` of the matrix is row `i` of the identity. */
  predicate IdentityRow(t: Tridiag, i: nat)
    requires WellFormed(t) && i < Size(t)
  {
    forall j :: 0 <= j < Size(t) ==> Entry(t, i, j) == if j == i then One else Zero
  }

  /** The three-term product agrees with the full row sum of the matrix. */
  lemma MatVecIsDenseProduct(t: Tridiag, x: seq<Complex>, i: nat)
    requires WellFormed(t) && |x| == Size(t) && i < Size(t)
    ensures MatVec(t, x)[i] == DenseRow(t, x, i, Size(t))
  {
    DenseRowIsBandPrefix(t, x, i, Size(t));
  }

  /** Entrywise sum and difference of two vectors of one length. */
  function AddVec(a: seq<Complex>, b: seq<Complex>): (c: seq<Complex>)
    requires |a| == |b|
    ensures |c| == |a|
  {
    seq(|a|, k requires 0 <= k < |a| => Add(a[k], b[k]))
  }

  /** `solve` returns, for every right-hand side, an `x` with A·x = rhs. */
  ghost predicate Solves(solve: (Tridiag, seq<Complex>) -> seq<Complex>, t: Tridiag)
  {
    WellFormed(t) &&
    forall rhs: seq<Complex> :: |rhs| == Size(t) ==>
      |solve(t, rhs)| == Size(t) && MatVec(t, solve(t, rhs)) == rhs
  }

  // ---------------------------------------------------------------------
  // The (3, n) band layout of a banded solver with one band on each side.

  predicate IsBand(band: seq<seq<Complex>>)
  {
    |band| == 3 && |band[1]| >= 1 && |band[0]| == |band[1]| && |band[2]| == |band[1]|
  }

  /** Packs the diagonals: row 0 is `[0] + upper`, row 1 `main`, row 2 `lower + [0]`. */
  function ToBand(t: Tridiag): (band: seq<seq<Complex>>)
    requires WellFormed(t)
    ensures IsBand(band) && |band[1]| == Size(t)
    ensures band[0][0] == Zero && band[2][Size(t) - 1] == Zero
    ensures forall i, j :: 0 <= i < Size(t) && 0 <= j < Size(t) && i <= j + 1 && j <= i + 1 ==>
      band[1 + i - j][j] == Entry(t, i, j)
  {
    [[Zero] + t.upper, t.main, t.lower + [Zero]]
  }

  /** The operator a band stands for, `A[i, j] == band[1 + i - j][j]`. */
  function FromBand(band: seq<seq<Complex>>): (t: Tridiag)
    requires IsBand(band)
    ensures WellFormed(t) && Size(t) == |band[1]|
  {
    Tridiag(band[2][..|band[1]| - 1], band[1], band[0][1..])
  }

  /** Reading a packed band back gives the operator that was packed. */
  lemma BandRoundTrip(t: Tridiag)
    requires WellFormed(t)
    ensures FromBand(ToBand(t)) == t
  {
    var band := ToBand(t);
    assert band[2][..Size(t) - 1] == t.lower;
    assert band[0][1..] == t.upper;
  }

  // ---------------------------------------------------------------------
  // The cylindrical Crank-Nicolson stencil shared by the propagators.

  /** `-c·(1 - 0.5/i)`, the entry A[i, i-1] of an interior row `i`. */
  function CnLower(c: Complex, i: nat): Complex
    requires i >= 1
  {
    Scale(-(1.0 - 0.5 / (i as real)), c)
  }

  /** `-c·(1 + 0.5/i)`, the entry A[i, i+1] of an interior row `i`. */
  function CnUpper(c: Complex, i: nat): Complex
    requires i >= 1
  {
    Scale(-(1.0 + 0.5 / (i as real)), c)
  }

  /** The lower diagonal: rows 1 .. n-2 from the stencil, then a 0 for the last row. */
  function CnLowerDiag(n: nat, c: Complex): (d: seq<Complex>)
    requires n >= 2
    ensures |d| == n - 1
  {
    seq(n - 1, k requires 0 <= k < n - 1 => if k < n - 2 then CnLower(c, k + 1) else Zero)
  }

  /** The upper diagonal: a leading entry `first` for row 0, then rows 1 .. n-2. */
  function CnUpperDiag(n: nat, c: Complex, first: Complex): (d: seq<Complex>)
    requires n >= 2
    ensures |d| == n - 1
  {
    seq(n - 1, k requires 0 <= k < n - 1 => if k == 0 then first else CnUpper(c, k))
  }

  /** `n` copies of one value (`np.full`). */
  function Full(n: nat, v: Complex): (d: seq<Complex>)
    ensures |d| == n && forall k :: 0 <= k < n ==> d[k] == v
  {
    seq(n, _ => v)
  }

  /** The cylindrical operator with a given main diagonal and axis entry A[0, 1]. */
  function CnOperator(n: nat, c: Complex, main: seq<Complex>, axis: Complex): (t: Tridiag)
    requires n >= 2 && |main| == n
    ensures WellFormed(t) && Size(t) == n
  {
    Tridiag(CnLowerDiag(n, c), main, CnUpperDiag(n, c, axis))
  }

  /** Every entry of the cylindrical operator, row by row. */
  lemma CnOperatorEntries(n: nat, c: Complex, main: seq<Complex>, axis: Complex)
    requires n >= 2 && |main| == n
    ensures var t := CnOperator(n, c, main, axis);
      && (forall i :: 0 <= i < n ==> Entry(t, i, i) == main[i])
      && Entry(t, 0, 1) == axis
      && (forall i :: 1 <= i <= n - 2 ==>
            Entry(t, i, i - 1) == CnLower(c, i) && Entry(t, i, i + 1) == CnUpper(c, i))
      && Entry(t, n - 1, n - 2) == Zero
      && (forall i, j :: 0 <= i < n && 0 <= j < n && j + 1 < i ==> Entry(t, i, j) == Zero)
      && (forall i, j :: 0 <= i < n && 0 <= j < n && i + 1 < j ==> Entry(t, i, j) == Zero)
  {
  }
}
