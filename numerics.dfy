/**
 * Exact stand-ins for the numeric values the propagators work with.
 *
 * Complex numbers are pairs of reals (numpy complex128 without rounding).
 * Everything the code obtains from the floating-point library (exp, sqrt,
 * arcsinh, real powers, np.abs of a complex value, np.isfinite and the
 * quadrature behind phi_integral) is carried as a record of functions,
 * together with the few facts about them that the code relies on.
 */
module Numerics {

  /** A complex number as a pair of reals. */
  datatype Complex = Complex(re: real, im: real)

  const Zero: Complex := Complex(0.0, 0.0)
  const One: Complex := Complex(1.0, 0.0)
  /** The imaginary unit, `1j`. */
  const I: Complex := Complex(0.0, 1.0)

  function Of(x: real): Complex { Complex(x, 0.0) }

  function Add(a: Complex, b: Complex): Complex { Complex(a.re + b.re, a.im + b.im) }

  function Sub(a: Complex, b: Complex): Complex { Complex(a.re - b.re, a.im - b.im) }

  function Neg(a: Complex): Complex { Complex(-a.re, -a.im) }

  function Mul(a: Complex, b: Complex): Complex
  {
    Complex(a.re * b.re - a.im * b.im, a.re * b.im + a.im * b.re)
  }

  /** A real multiple of a complex number. */
  function Scale(k: real, a: Complex): Complex { Complex(k * a.re, k * a.im) }

  /** `np.abs(z) ** 2`, which needs no square root. */
  function AbsSq(a: Complex): real { a.re * a.re + a.im * a.im }

  /** `x ** n` for a natural exponent. */
  function Pow(x: real, n: nat): real
  {
    if n == 0 then 1.0 else x * Pow(x, n - 1)
  }

  /** A power of a product is the product of the powers. */
  lemma {:induction false} PowOfProduct(x: real, y: real, n: nat)
    ensures Pow(x * y, n) == Pow(x, n) * Pow(y, n)
  {
    if n > 0 {
      PowOfProduct(x, y, n - 1);
      var a, b := Pow(x, n - 1), Pow(y, n - 1);
      assert Pow(x * y, n) == (x * y) * (a * b);
      assert (x * y) * (a * b) == (x * a) * (y * b);
    }
  }

  /** Powers of a non-negative base are non-negative. */
  lemma {:induction false} PowNonNegative(x: real, n: nat)
    requires x >= 0.0
    ensures Pow(x, n) >= 0.0
  {
    if n > 0 {
      PowNonNegative(x, n - 1);
      assert x * Pow(x, n - 1) >= 0.0;
    }
  }

  /** Any positive power of zero is zero. */
  lemma PowZeroBase(n: nat)
    requires n > 0
    ensures Pow(0.0, n) == 0.0
  {
  }

  /** `int(np.ceil(x))`: the least integer not below `x`. */
  function Ceil(x: real): (n: int)
    ensures x <= n as real < x + 1.0
  {
    if x.Floor as real == x then x.Floor else x.Floor + 1
  }

  /** `int(x)`: rounds toward zero. */
  function Trunc(x: real): (n: int)
    ensures x >= 0.0 ==> n as real <= x < n as real + 1.0
    ensures x < 0.0 ==> n as real - 1.0 < x <= n as real
  {
    if x >= 0.0 then x.Floor else -((-x).Floor)
  }

  /** Python's reading of an index `i` into a sequence of length `n`. */
  function PyIndex(i: int, n: nat): int
  {
    if i < 0 then i + n else i
  }

  /**
   * The floating-point library the code calls, as uninterpreted functions.
   * `quad(x)` stands for `scipy.integrate.quad(lambda y: exp(y*y), 0, x)`,
   * `rpow(x, y)` for `x ** y` with a real exponent, `abs` for `np.abs` of a
   * complex value, `cis(x)` for `np.exp(1j * x)`, `finite` for `np.isfinite`
   * of one double, `pi` for `np.pi`, and `nan` for the value that an
   * expression built on a division by zero evaluates to.
   */
  datatype Library = Library(
    exp: real -> real,
    sqrt: real -> real,
    asinh: real -> real,
    rpow: (real, real) -> real,
    quad: real -> real,
    abs: Complex -> real,
    cis: real -> Complex,
    finite: real -> bool,
    pi: real,
    nan: real)

  /** The facts about the library that the model relies on. */
  ghost predicate Facts(lib: Library)
  {
    && (forall x :: lib.exp(x) > 0.0)
    && (forall x :: x > 0.0 ==> lib.sqrt(x) > 0.0 && lib.sqrt(x) * lib.sqrt(x) == x)
    && (forall x :: x > 0.0 ==> lib.quad(x) >= 0.0)
    && (forall z :: lib.abs(z) >= 0.0)
    && lib.abs(Zero) == 0.0
    && !lib.finite(lib.nan)
  }

  /** `np.isfinite` of a complex value: both parts finite. */
  function FiniteComplex(lib: Library, z: Complex): bool
  {
    lib.finite(z.re) && lib.finite(z.im)
  }
}
