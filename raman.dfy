/**
 * The delayed Raman response (`compute_raman`): a damped oscillator driven
 * by the intensity, `R'' = c1·(I − R) + c2·R'`, integrated along the time
 * axis with one classical Runge-Kutta step per time slice. Every operation
 * acts entry by entry on a time slice, so the step is stated for one radial
 * row and the sweep applies it to every row.
 */
module Raman {
  import opened Grid

  /** `_set_raman`: the right-hand side `(R', c1·(I − R) + c2·R')` at one point. */
  function SetRaman(ram: real, dram: real, inten: real, c1: real, c2: real): (real, real)
  {
    (dram, c1 * (inten - ram) + c2 * dram)
  }

  /** `_rk4_raman_step` at one point: stages at `+dt/2`, `+dt/2`, `+dt`, weights 1, 2, 2, 1. */
  function Rk4RamanStep(ram: real, dram: real, inten: real, c1: real, c2: real, dt: real): (real, real)
  {
    var k1 := SetRaman(ram, dram, inten, c1, c2);
    var k2 := SetRaman(ram + 0.5 * dt * k1.0, dram + 0.5 * dt * k1.1, inten, c1, c2);
    var k3 := SetRaman(ram + 0.5 * dt * k2.0, dram + 0.5 * dt * k2.1, inten, c1, c2);
    var k4 := SetRaman(ram + dt * k3.0, dram + dt * k3.1, inten, c1, c2);
    (ram + dt * (k1.0 + 2.0 * k2.0 + 2.0 * k3.0 + k4.0) / 6.0,
     dram + dt * (k1.1 + 2.0 * k2.1 + 2.0 * k3.1 + k4.1) / 6.0)
  }

  /**
   * The response and its derivative at time index `ll` of a row after the
   * sweep: zero at index 0, then one step per slice, each driven by the
   * intensity of the slice it starts from.
   */
  function Sweep(inten: seq<real>, c1: real, c2: real, dt: real, ll: nat): (real, real)
    requires ll <= |inten|
  {
    if ll == 0 then (0.0, 0.0)
    else
      var prev := Sweep(inten, c1, c2, dt, ll - 1);
      Rk4RamanStep(prev.0, prev.1, inten[ll - 1], c1, c2, dt)
  }

  /** The right-hand side vanishes at rest with no drive: zero is a fixed point of the step. */
  lemma ZeroIsFixed(c1: real, c2: real, dt: real)
    ensures Rk4RamanStep(0.0, 0.0, 0.0, c1, c2, dt) == (0.0, 0.0)
  {
    EquilibriumIsFixed(0.0, c1, c2, dt);
  }

  /** A row whose intensity is zero up to index `ll` has a zero response there. */
  lemma {:induction false} DarkRowStaysZero(inten: seq<real>, c1: real, c2: real, dt: real, ll: nat)
    requires ll <= |inten|
    requires forall q :: 0 <= q < ll ==> inten[q] == 0.0
    ensures Sweep(inten, c1, c2, dt, ll) == (0.0, 0.0)
  {
    if ll > 0 {
      DarkRowStaysZero(inten, c1, c2, dt, ll - 1);
      ZeroIsFixed(c1, c2, dt);
    }
  }

  /** A stage input `x + h·k` with a zero slope `k` is `x` itself. */
  lemma ZeroSlopeStage(x: real, h: real, k: real)
    requires k == 0.0
    ensures x + h * k == x
  {
  }

  /** The equilibrium `R = I`, `R' = 0` is kept by one step under the same intensity. */
  lemma EquilibriumIsFixed(inten: real, c1: real, c2: real, dt: real)
    ensures Rk4RamanStep(inten, 0.0, inten, c1, c2, dt) == (inten, 0.0)
  {
    var k1 := SetRaman(inten, 0.0, inten, c1, c2);
    assert k1 == (0.0, 0.0);
    ZeroSlopeStage(inten, 0.5 * dt, k1.0);
    ZeroSlopeStage(0.0, 0.5 * dt, k1.1);
    ZeroSlopeStage(inten, dt, k1.0);
    ZeroSlopeStage(0.0, dt, k1.1);
    assert Rk4RamanStep(inten, 0.0, inten, c1, c2, dt)
        == (inten + dt * (k1.0 + 2.0 * k1.0 + 2.0 * k1.0 + k1.0) / 6.0,
            0.0 + dt * (k1.1 + 2.0 * k1.1 + 2.0 * k1.1 + k1.1) / 6.0);
    ZeroSlopeStage(inten, dt / 6.0, k1.0 + 2.0 * k1.0 + 2.0 * k1.0 + k1.0);
  }

  /** Once a row sits at the equilibrium of a constant intensity, it stays there. */
  lemma {:induction false} EquilibriumPersists(inten: seq<real>, c1: real, c2: real, dt: real, start: nat, ll: nat)
    requires start <= ll <= |inten|
    requires Sweep(inten, c1, c2, dt, start).1 == 0.0
    requires forall q :: start <= q < ll ==> inten[q] == Sweep(inten, c1, c2, dt, start).0
    ensures Sweep(inten, c1, c2, dt, ll) == Sweep(inten, c1, c2, dt, start)
  {
    if ll > start {
      EquilibriumPersists(inten, c1, c2, dt, start, ll - 1);
      EquilibriumIsFixed(inten[ll - 1], c1, c2, dt);
    }
  }

  /** `ram_a[:, 0], dram_a[:, 0] = 0, 0`. */
  method ZeroFirstColumn(ram: array2<real>, dram: array2<real>)
    requires ram != dram && ram.Length0 == dram.Length0 && ram.Length1 == dram.Length1 >= 1
    modifies ram, dram
    ensures forall p, q :: 0 <= p < ram.Length0 && 0 <= q < ram.Length1 ==>
      ram[p, q] == (if q == 0 then 0.0 else old(ram[p, q])) &&
      dram[p, q] == (if q == 0 then 0.0 else old(dram[p, q]))
  {
    var i := 0;
    while i < ram.Length0
      invariant 0 <= i <= ram.Length0
      invariant forall p, q :: 0 <= p < ram.Length0 && 0 <= q < ram.Length1 ==>
        ram[p, q] == (if q == 0 && p < i then 0.0 else old(ram[p, q])) &&
        dram[p, q] == (if q == 0 && p < i then 0.0 else old(dram[p, q]))
    {
      ram[i, 0], dram[i, 0] := 0.0, 0.0;
      i := i + 1;
    }
  }

  /** One pass of the sweep: `ram_a[:, ll+1], dram_a[:, ll+1]` from column `ll`, row by row. */
  method StepColumn(ram: array2<real>, dram: array2<real>, inten: array2<real>, ll: nat,
                    c1: real, c2: real, dt: real)
    requires ram != dram
    requires ram.Length0 == dram.Length0 == inten.Length0
    requires ll + 1 < ram.Length1 && ram.Length1 == dram.Length1 == inten.Length1
    modifies ram, dram
    ensures forall p, q :: 0 <= p < ram.Length0 && 0 <= q < ram.Length1 ==>
      && ram[p, q] == (if q == ll + 1
                       then Rk4RamanStep(old(ram[p, ll]), old(dram[p, ll]), inten[p, ll], c1, c2, dt).0
                       else old(ram[p, q]))
      && dram[p, q] == (if q == ll + 1
                        then Rk4RamanStep(old(ram[p, ll]), old(dram[p, ll]), inten[p, ll], c1, c2, dt).1
                        else old(dram[p, q]))
  {
    var ramS, dramS, intS := Column(ram, ll), Column(dram, ll), Column(inten, ll);
    var i := 0;
    while i < ram.Length0
      invariant 0 <= i <= ram.Length0
      invariant forall p, q :: 0 <= p < ram.Length0 && 0 <= q < ram.Length1 ==>
        && ram[p, q] == (if q == ll + 1 && p < i then Rk4RamanStep(ramS[p], dramS[p], intS[p], c1, c2, dt).0
                         else old(ram[p, q]))
        && dram[p, q] == (if q == ll + 1 && p < i then Rk4RamanStep(ramS[p], dramS[p], intS[p], c1, c2, dt).1
                          else old(dram[p, q]))
    {
      var next := Rk4RamanStep(ramS[i], dramS[i], intS[i], c1, c2, dt);
      ram[i, ll + 1], dram[i, ll + 1] := next.0, next.1;
      i := i + 1;
    }
  }

  /**
   * `compute_raman(ram_a, dram_a, int_a, t_a, c1, c2)`: column 0 of both
   * arrays becomes zero and each column `ll + 1 < len(t_a)` is the step from
   * column `ll` with `dt = t_a[1] − t_a[0]`; later columns, `int_a` and
   * `t_a` are left alone.
   */
  method ComputeRaman(ram: array2<real>, dram: array2<real>, inten: array2<real>, t: seq<real>, c1: real, c2: real)
    requires ram != dram && inten != ram && inten != dram
    requires |t| >= 2
    requires ram.Length0 == dram.Length0 == inten.Length0
    requires |t| <= ram.Length1 && ram.Length1 == dram.Length1 == inten.Length1
    modifies ram, dram
    ensures forall i, q :: 0 <= i < ram.Length0 && 0 <= q < ram.Length1 ==>
      (ram[i, q], dram[i, q])
        == if q < |t| then Sweep(Snapshot(inten)[i], c1, c2, t[1] - t[0], q) else (old(ram[i, q]), old(dram[i, q]))
  {
    var dt := t[1] - t[0];
    ghost var drive := Snapshot(inten);
    ZeroFirstColumn(ram, dram);
    var ll := 0;
    while ll < |t| - 1
      invariant 0 <= ll <= |t| - 1
      invariant forall p, q :: 0 <= p < ram.Length0 && 0 <= q < ram.Length1 ==>
        (ram[p, q], dram[p, q]) == if q <= ll then Sweep(drive[p], c1, c2, dt, q) else (old(ram[p, q]), old(dram[p, q]))
    {
      StepColumn(ram, dram, inten, ll, c1, c2, dt);
      ll := ll + 1;
    }
  }
}
