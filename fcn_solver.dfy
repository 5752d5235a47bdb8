/**
 * `FCNSolver` of the water propagator: the buffers it owns, one
 * propagation step, the cheap and expensive diagnostics, and the run of
 * `propagate` as blocks of steps with a snapshot at the end of each block.
 */
module FcnSolver {
  import opened Numerics
  import opened Grid
  import opened Tridiagonal
  import opened Water
  import Fss

  /** The solver's constants: shapes, the schedule, the operators and the step lengths. */
  datatype Config = Config(
    nR: nat, nT: nat, nSteps: nat, distLimit: nat, dli: nat, axisNode: nat, peakNode: nat,
    ops: CnOperators, dens: DensityArgs, field: FieldArgs,
    dz: real, dz2: real, dz6: real, dt: real, dt2: real, dt6: real)

  predicate ConfigOk(c: Config)
  {
    && c.nR >= 2 && c.nT >= 1
    && c.axisNode < c.nR && c.peakNode < c.nT
    && c.distLimit >= 1 && c.distLimit * c.dli <= c.nSteps
    && |c.ops.fourier| == c.nT
    && WellFormed(c.ops.left) && Size(c.ops.left) == c.nR
    && WellFormed(c.ops.right) && Size(c.ops.right) == c.nR
    && c.field.nPh >= 1
  }

  /**
   * The configuration `FCNSolver.__init__` derives from its domain: shapes,
   * schedule and nodes from `DomainParameters`, the step lengths and their
   * halves and sixths, and the operators from `setup_operators` over the
   * grid with the same node counts and step lengths.
   */
  predicate ConfiguredFrom(c: Config, lib: Library, g: Fss.FssGrid, d: Domain)
    requires Fss.GridOk(g) && d.distLimit > 0 && d.finRadi != d.iniRadi
  {
    && c.nR == NRadiNodes(d) == g.nR && c.nT == d.nTimeNodes == g.nT
    && c.nSteps == d.nSteps && c.distLimit == d.distLimit && c.dli == DistLimitin(d)
    && c.axisNode == AxisNode(d) && c.peakNode == PeakNode(d)
    && c.dz == g.zRes && c.dz2 == 0.5 * c.dz && c.dz6 == c.dz / 6.0
    && c.dt == g.tRes && c.dt2 == 0.5 * c.dt && c.dt6 == c.dt / 6.0
    && c.ops == SetupOperators(lib, g)
  }

  /**
   * The water script's own configuration meets every assumption the run
   * lemmas make: five blocks of 200 steps that cover the 1000 steps
   * exactly, axis node 0 and peak node 2048.
   */
  lemma WaterConfigOk(c: Config, lib: Library, g: Fss.FssGrid)
    requires Fss.GridOk(g) && ConfiguredFrom(c, lib, g, WaterDomain) && c.field.nPh >= 1
    ensures ConfigOk(c)
    ensures c.distLimit == 5 && c.dli == 200 && c.distLimit * c.dli == c.nSteps == 1000
    ensures c.axisNode == 0 && c.peakNode == 2048
  {
    WaterDomainFacts();
  }

  /** How `cheap_diagnostics` ends: it returns, or it exits after a non-finite value. */
  datatype Outcome = Continue | NonFiniteEnvelope | NonFiniteDensity

  /** The contents of the solver's buffers. */
  datatype WaterState = WaterState(
    envelope: Mat<Complex>, density: Mat<real>, nextEnvelope: Mat<Complex>, nextDensity: Mat<real>,
    b: Mat<Complex>, w: Mat<Complex>,
    distEnvelope: seq<Mat<Complex>>, distDensity: seq<Mat<real>>,
    axisEnvelope: Mat<Complex>, axisDensity: Mat<real>, peakEnvelope: Mat<Complex>, peakDensity: Mat<real>,
    kArray: seq<int>)

  predicate Shaped(s: WaterState, c: Config)
  {
    && IsMat(s.envelope, c.nR, c.nT) && IsMat(s.density, c.nR, c.nT)
    && IsMat(s.nextEnvelope, c.nR, c.nT) && IsMat(s.nextDensity, c.nR, c.nT)
    && IsMat(s.b, c.nR, c.nT) && IsMat(s.w, c.nR, c.nT)
    && |s.distEnvelope| == c.distLimit + 1 && |s.distDensity| == c.distLimit + 1
    && (forall k :: 0 <= k < |s.distEnvelope| ==> IsMat(s.distEnvelope[k], c.nR, c.nT))
    && (forall k :: 0 <= k < |s.distDensity| ==> IsMat(s.distDensity[k], c.nR, c.nT))
    && IsMat(s.axisEnvelope, c.nSteps + 1, c.nT) && IsMat(s.axisDensity, c.nSteps + 1, c.nT)
    && IsMat(s.peakEnvelope, c.nR, c.nSteps + 1) && IsMat(s.peakDensity, c.nR, c.nSteps + 1)
    && |s.kArray| == c.distLimit + 1
  }

  // ---------------------------------------------------------------------
  // What each method does to the state

  /** A matrix of zeros. */
  function Zeros(rows: nat, cols: nat): (m: Mat<real>)
    ensures IsMat(m, rows, cols) && forall i, j :: 0 <= i < rows && 0 <= j < cols ==> m[i][j] == 0.0
  {
    seq(rows, _ => seq(cols, _ => 0.0))
  }

  /**
   * `set_initial_condition()` for a given initial envelope: slot 0 of the
   * snapshots, row 0 of the axis records, column 0 of the peak records and
   * `k_array[0] = 0`. The density snapshot in slot 0 is zero, while the
   * density records are taken from the density buffer as it stands.
   */
  function Initial(s: WaterState, c: Config, init: Mat<Complex>): (r: WaterState)
    requires ConfigOk(c) && Shaped(s, c) && IsMat(init, c.nR, c.nT)
    ensures Shaped(r, c)
  {
    var s' := s.(envelope := init,
                 distEnvelope := s.distEnvelope[0 := init],
                 distDensity := s.distDensity[0 := Zeros(c.nR, c.nT)],
                 kArray := s.kArray[0 := 0]);
    Lines(s', c, 0, c.peakNode, c.peakNode)
  }

  /**
   * `solve_step()`: density, dispersion, nonlinear terms on the dispersed
   * envelope and the new density, envelope solve, then `np.copyto` of the
   * next envelope and density into the current ones.
   */
  function StepSpec(s: WaterState, c: Config, tr: Transforms): (r: WaterState)
    requires ConfigOk(c) && Shaped(s, c) && SolveKeepsLength(tr)
    ensures Shaped(r, c)
  {
    var nn := DensitySweep(s.envelope, s.density, s.nextDensity, c.nR, c.nT, c.nT, c.dens, c.dt, c.dt2, c.dt6);
    var b := Dispersion(tr, c.ops.fourier, s.envelope, c.nR, c.nT);
    var w := NonlinearSweep(b, nn, s.w, c.nR, c.nT, c.nT, c.field, c.dz, c.dz2, c.dz6);
    var en := EnvelopeSweep(tr, c.ops.left, c.ops.right, b, w, s.nextEnvelope, c.nT, c.nT);
    s.(envelope := en, density := nn, nextEnvelope := en, nextDensity := nn, b := b, w := w)
  }

  /** `|E|` along the axis row, the values `np.argmax` scans for the intensity peak. */
  function AxisModulus(lib: Library, row: seq<Complex>): (r: seq<real>)
    ensures |r| == |row|
  {
    seq(|row|, j requires 0 <= j < |row| => lib.abs(row[j]))
  }

  /**
   * The records of one step: the axis rows of the envelope and the density
   * go to row `step`, and the radial columns through time nodes `jE` and
   * `jN` go to column `step` of the peak records.
   */
  function Lines(s: WaterState, c: Config, step: nat, jE: nat, jN: nat): (r: WaterState)
    requires ConfigOk(c) && Shaped(s, c) && step <= c.nSteps && jE < c.nT && jN < c.nT
    ensures Shaped(r, c)
  {
    s.(axisEnvelope := s.axisEnvelope[step := s.envelope[c.axisNode]],
       axisDensity := s.axisDensity[step := s.density[c.axisNode]],
       peakEnvelope := WithColumn(s.peakEnvelope, step, Col(s.envelope, jE)),
       peakDensity := WithColumn(s.peakDensity, step, Col(s.density, jN)))
  }

  /** The recording half of `cheap_diagnostics(step)`: the peaks are where `np.argmax` finds them on the axis. */
  function Record(s: WaterState, c: Config, lib: Library, step: nat): (r: WaterState)
    requires ConfigOk(c) && Shaped(s, c) && step <= c.nSteps
    ensures Shaped(r, c)
  {
    Lines(s, c, step, FirstArgMax(AxisModulus(lib, s.envelope[c.axisNode])), FirstArgMax(s.density[c.axisNode]))
  }

  predicate EnvelopeFinite(lib: Library, m: Mat<Complex>)
  {
    forall i, j :: 0 <= i < |m| && 0 <= j < |m[i]| ==> FiniteComplex(lib, m[i][j])
  }

  predicate DensityFinite(lib: Library, m: Mat<real>)
  {
    forall i, j :: 0 <= i < |m| && 0 <= j < |m[i]| ==> lib.finite(m[i][j])
  }

  /** The checks of `cheap_diagnostics`, envelope first. */
  function Check(s: WaterState, lib: Library): Outcome
  {
    if !EnvelopeFinite(lib, s.envelope) then NonFiniteEnvelope
    else if !DensityFinite(lib, s.density) then NonFiniteDensity
    else Continue
  }

  /** `cheap_diagnostics(step)`: record, then check the current buffers. */
  function Cheap(s: WaterState, c: Config, lib: Library, step: nat): (r: (WaterState, Outcome))
    requires ConfigOk(c) && Shaped(s, c) && step <= c.nSteps
    ensures Shaped(r.0, c)
  {
    (Record(s, c, lib, step), Check(s, lib))
  }

  /** `expensive_diagnostics(step)`: a snapshot in slot `step` and the next entry of `k_array`. */
  function Expensive(s: WaterState, c: Config, step: nat): (r: WaterState)
    requires 1 <= step < |s.kArray| && step < |s.distEnvelope| && step < |s.distDensity|
    ensures |r.kArray| == |s.kArray| && |r.distEnvelope| == |s.distEnvelope| && |r.distDensity| == |s.distDensity|
  {
    s.(distEnvelope := s.distEnvelope[step := s.envelope],
       distDensity := s.distDensity[step := s.density],
       kArray := s.kArray[step := s.kArray[step - 1] + c.dli])
  }

  /** One iteration of the inner loop of `propagate`, given the step number. */
  type Advance = (WaterState, nat) -> (WaterState, Outcome)

  /**
   * `solve_step()` then `cheap_diagnostics(step)`, for states of the
   * solver's shapes and step numbers within the run; other arguments never
   * reach it and are left as they are.
   */
  ghost function AdvanceOnce(s: WaterState, c: Config, lib: Library, tr: Transforms, step: nat): (WaterState, Outcome)
  {
    if ConfigOk(c) && Shaped(s, c) && SolveKeepsLength(tr) && step <= c.nSteps
    then Cheap(StepSpec(s, c, tr), c, lib, step)
    else (s, Continue)
  }

  /**
   * Marks the points where the defining fact of `Models` is needed: it is
   * used only as a trigger, so that fact is instantiated only at the steps a
   * proof names and not at every application of the advance.
   */
  ghost predicate Applied(s: WaterState, step: nat)
  {
    true
  }

  /** `adv` is one iteration of the inner loop of `propagate` for these constants, on every input. */
  ghost predicate Models(adv: Advance, c: Config, lib: Library, tr: Transforms)
  {
    forall s: WaterState, step: nat {:trigger Applied(s, step)} :: adv(s, step) == AdvanceOnce(s, c, lib, tr, step)
  }

  ghost function Advancer(c: Config, lib: Library, tr: Transforms): (adv: Advance)
    ensures Models(adv, c, lib, tr)
  {
    (s: WaterState, step: nat) => AdvanceOnce(s, c, lib, tr, step)
  }

  /** An advance that leaves `k_array` and the snapshots alone. */
  ghost predicate KeepsSnapshots(adv: Advance)
  {
    forall s: WaterState, step: nat :: adv(s, step).0.kArray == s.kArray
      && adv(s, step).0.distEnvelope == s.distEnvelope && adv(s, step).0.distDensity == s.distDensity
  }

  /** Steps `base + 1 .. base + count` of the inner loop, up to an exit; they never touch the snapshots. */
  function Steps(s: WaterState, adv: Advance, base: nat, count: nat): (r: (WaterState, Outcome))
    requires KeepsSnapshots(adv)
    ensures r.0.kArray == s.kArray && r.0.distEnvelope == s.distEnvelope && r.0.distDensity == s.distDensity
  {
    if count == 0 then (s, Continue)
    else
      var p := Steps(s, adv, base, count - 1);
      if p.1 != Continue then p
      else adv(p.0, base + count)
  }

  /** Block `m` of `propagate`: steps `(m−1)·dist_limitin + 1 .. m·dist_limitin`, then `expensive_diagnostics(m)`. */
  function Block(s: WaterState, c: Config, adv: Advance, m: nat): (r: (WaterState, Outcome))
    requires KeepsSnapshots(adv)
    requires 1 <= m < |s.kArray| && m < |s.distEnvelope| && m < |s.distDensity|
    ensures |r.0.kArray| == |s.kArray| && |r.0.distEnvelope| == |s.distEnvelope| && |r.0.distDensity| == |s.distDensity|
  {
    var q := Steps(s, adv, (m - 1) * c.dli, c.dli);
    if q.1 != Continue then q
    else (Expensive(q.0, c, m), Continue)
  }

  /** The first `m` blocks of `propagate`, up to an exit. */
  function Blocks(s: WaterState, c: Config, adv: Advance, m: nat): (r: (WaterState, Outcome))
    requires KeepsSnapshots(adv)
    requires m < |s.kArray| && m < |s.distEnvelope| && m < |s.distDensity|
    ensures |r.0.kArray| == |s.kArray| && |r.0.distEnvelope| == |s.distEnvelope| && |r.0.distDensity| == |s.distDensity|
  {
    if m == 0 then (s, Continue)
    else
      var p := Blocks(s, c, adv, m - 1);
      if p.1 != Continue then p
      else Block(p.0, c, adv, m)
  }

  /** Block `m` ends at step `m·dist_limitin`, within the `n_steps` steps. */
  lemma BlockFits(c: Config, m: nat)
    requires ConfigOk(c) && 1 <= m <= c.distLimit
    ensures 0 <= (m - 1) * c.dli && (m - 1) * c.dli + c.dli <= c.nSteps
  {
    MulMonotone(m, c.distLimit, c.dli);
    assert c.distLimit * c.dli <= c.nSteps;
  }

  // ---------------------------------------------------------------------
  // Properties of the run

  /** `cheap_diagnostics` stores the step before it checks: an exit still leaves the step recorded. */
  lemma ExitAfterRecording(s: WaterState, c: Config, lib: Library, step: nat)
    requires ConfigOk(c) && Shaped(s, c) && step <= c.nSteps
    ensures var r := Cheap(s, c, lib, step);
      && r.0.axisEnvelope[step] == s.envelope[c.axisNode]
      && r.0.axisDensity[step] == s.density[c.axisNode]
      && (r.1 == Continue <==> EnvelopeFinite(lib, s.envelope) && DensityFinite(lib, s.density))
      && (r.1 == NonFiniteEnvelope <==> !EnvelopeFinite(lib, s.envelope))
  {
  }

  /** The peak columns are the radial columns through the first maximum on the axis. */
  lemma PeakColumns(s: WaterState, c: Config, lib: Library, step: nat)
    requires ConfigOk(c) && Shaped(s, c) && step <= c.nSteps
    ensures var r := Cheap(s, c, lib, step).0;
      var axisE, axisN := AxisModulus(lib, s.envelope[c.axisNode]), s.density[c.axisNode];
      var jE, jN := FirstArgMax(axisE), FirstArgMax(axisN);
      && jE < c.nT && jN < c.nT
      && (forall j :: 0 <= j < c.nT ==> axisE[j] <= axisE[jE] && axisN[j] <= axisN[jN])
      && (forall j :: 0 <= j < jE ==> axisE[j] < axisE[jE])
      && (forall j :: 0 <= j < jN ==> axisN[j] < axisN[jN])
      && (forall i :: 0 <= i < c.nR ==>
            r.peakEnvelope[i][step] == s.envelope[i][jE] && r.peakDensity[i][step] == s.density[i][jN])
  {
  }

  /**
   * After a step the current and next buffers hold the same values, and only
   * the six working buffers have changed: the snapshots, `k_array` and the
   * axis and peak lines are untouched.
   */
  lemma StepCommits(s: WaterState, c: Config, tr: Transforms)
    requires ConfigOk(c) && Shaped(s, c) && SolveKeepsLength(tr)
    ensures var r := StepSpec(s, c, tr);
      && r.envelope == r.nextEnvelope && r.density == r.nextDensity
      && r == s.(envelope := r.envelope, density := r.density, nextEnvelope := r.nextEnvelope,
                 nextDensity := r.nextDensity, b := r.b, w := r.w)
  {
  }

  /** `solve_step` and `cheap_diagnostics` never touch `k_array` or the snapshots. */
  lemma ModelKeepsSnapshots(adv: Advance, c: Config, lib: Library, tr: Transforms)
    requires Models(adv, c, lib, tr)
    ensures KeepsSnapshots(adv)
  {
    forall s: WaterState, step: nat
      ensures adv(s, step).0.kArray == s.kArray
        && adv(s, step).0.distEnvelope == s.distEnvelope && adv(s, step).0.distDensity == s.distDensity
    {
      assert Applied(s, step);
      if ConfigOk(c) && Shaped(s, c) && SolveKeepsLength(tr) && step <= c.nSteps {
        StepCommits(s, c, tr);
      }
    }
  }

  /** `k_array[0 .. m]` holds the step numbers `0, d, 2d, …, m·d`. */
  predicate StepMultiples(k: seq<int>, d: nat, m: nat)
  {
    m < |k| && forall q :: 0 <= q <= m ==> k[q] == q * d
  }

  /** `k[m] := k[m − 1] + d`, the update of `expensive_diagnostics(m)`, extends the step numbers by one block. */
  lemma NextBlockNumber(k: seq<int>, d: nat, m: nat)
    requires 1 <= m < |k| && StepMultiples(k, d, m - 1)
    ensures StepMultiples(k[m := k[m - 1] + d], d, m)
  {
    var k' := k[m := k[m - 1] + d];
    forall q | 0 <= q <= m
      ensures k'[q] == q * d
    {
      if q == m {
        NextMultiple(m, d);
      }
    }
  }

  lemma NextMultiple(m: nat, d: nat)
    requires m >= 1
    ensures (m - 1) * d + d == m * d
  {
  }

  /** After `m` uninterrupted blocks, `k_array[q] = q·dist_limitin` for every `q <= m`. */
  lemma {:induction false} KArrayAfterBlocks(s: WaterState, c: Config, adv: Advance, m: nat)
    requires KeepsSnapshots(adv)
    requires m < |s.kArray| && m < |s.distEnvelope| && m < |s.distDensity|
    requires s.kArray[0] == 0
    requires Blocks(s, c, adv, m).1 == Continue
    ensures StepMultiples(Blocks(s, c, adv, m).0.kArray, c.dli, m)
  {
    if m == 0 {
      assert StepMultiples(s.kArray, c.dli, 0);
    } else {
      var p := Blocks(s, c, adv, m - 1);
      assert p.1 == Continue;
      KArrayAfterBlocks(s, c, adv, m - 1);
      NextBlockNumber(p.0.kArray, c.dli, m);
    }
  }

  /** Within a block, once a step exits the later steps add nothing. */
  lemma {:induction false} StepsExitIsFinal(s: WaterState, adv: Advance, base: nat, n: nat, count: nat)
    requires KeepsSnapshots(adv) && n <= count
    requires Steps(s, adv, base, n).1 != Continue
    ensures Steps(s, adv, base, count) == Steps(s, adv, base, n)
    decreases count - n
  {
    if count > n {
      StepsExitIsFinal(s, adv, base, n, count - 1);
    }
  }

  /** A run that exits stays exited: later blocks add nothing. */
  lemma {:induction false} ExitIsFinal(s: WaterState, c: Config, adv: Advance, m: nat, n: nat)
    requires KeepsSnapshots(adv) && m <= n
    requires n < |s.kArray| && n < |s.distEnvelope| && n < |s.distDensity|
    requires Blocks(s, c, adv, m).1 != Continue
    ensures Blocks(s, c, adv, n) == Blocks(s, c, adv, m)
    decreases n - m
  {
    if n > m {
      ExitIsFinal(s, c, adv, m, n - 1);
    }
  }

  // ---------------------------------------------------------------------

  class FcnSolverState {
    const cfg: Config
    const envelope: array2<Complex>
    const density: array2<real>
    const nextEnvelope: array2<Complex>
    const nextDensity: array2<real>
    const bArray: array2<Complex>
    const wArray: array2<Complex>
    const distEnvelope: array3<Complex>
    const distDensity: array3<real>
    const axisEnvelope: array2<Complex>
    const axisDensity: array2<real>
    const peakEnvelope: array2<Complex>
    const peakDensity: array2<real>
    const eTemp: array<Complex>
    const nTemp: array<real>
    const kArray: array<int>

    ghost predicate Valid()
      reads this
    {
      && ConfigOk(cfg)
      && envelope.Length0 == cfg.nR && envelope.Length1 == cfg.nT
      && density.Length0 == cfg.nR && density.Length1 == cfg.nT
      && nextEnvelope.Length0 == cfg.nR && nextEnvelope.Length1 == cfg.nT
      && nextDensity.Length0 == cfg.nR && nextDensity.Length1 == cfg.nT
      && bArray.Length0 == cfg.nR && bArray.Length1 == cfg.nT
      && wArray.Length0 == cfg.nR && wArray.Length1 == cfg.nT
      && distEnvelope.Length0 == cfg.nR && distEnvelope.Length1 == cfg.distLimit + 1
      && distEnvelope.Length2 == cfg.nT
      && distDensity.Length0 == cfg.nR && distDensity.Length1 == cfg.distLimit + 1
      && distDensity.Length2 == cfg.nT
      && axisEnvelope.Length0 == cfg.nSteps + 1 && axisEnvelope.Length1 == cfg.nT
      && axisDensity.Length0 == cfg.nSteps + 1 && axisDensity.Length1 == cfg.nT
      && peakEnvelope.Length0 == cfg.nR && peakEnvelope.Length1 == cfg.nSteps + 1
      && peakDensity.Length0 == cfg.nR && peakDensity.Length1 == cfg.nSteps + 1
      && kArray.Length == cfg.distLimit + 1
      && envelope != nextEnvelope && envelope != bArray && envelope != wArray
      && envelope != axisEnvelope && envelope != peakEnvelope
      && nextEnvelope != bArray && nextEnvelope != wArray
      && nextEnvelope != axisEnvelope && nextEnvelope != peakEnvelope
      && bArray != wArray && bArray != axisEnvelope && bArray != peakEnvelope
      && wArray != axisEnvelope && wArray != peakEnvelope && axisEnvelope != peakEnvelope
      && density != nextDensity && density != axisDensity && density != peakDensity
      && nextDensity != axisDensity && nextDensity != peakDensity && axisDensity != peakDensity
    }

    /** The values held in the solver's buffers. */
    function State(): (s: WaterState)
      reads this, envelope, density, nextEnvelope, nextDensity, bArray, wArray, distEnvelope, distDensity
      reads axisEnvelope, axisDensity, peakEnvelope, peakDensity, kArray
      requires Valid()
      ensures Shaped(s, cfg)
    {
      WaterState(Snapshot(envelope), Snapshot(density), Snapshot(nextEnvelope), Snapshot(nextDensity),
                 Snapshot(bArray), Snapshot(wArray), Snapshot3(distEnvelope), Snapshot3(distDensity),
                 Snapshot(axisEnvelope), Snapshot(axisDensity), Snapshot(peakEnvelope), Snapshot(peakDensity),
                 kArray[..])
    }

    /**
     * The buffers are fresh with unspecified contents (`np.empty`); the
     * constants are those `__init__` and `setup_operators` compute.
     */
    constructor (c: Config)
      requires ConfigOk(c)
      ensures Valid() && cfg == c
      ensures fresh(envelope) && fresh(density) && fresh(nextEnvelope) && fresh(nextDensity)
      ensures fresh(bArray) && fresh(wArray) && fresh(distEnvelope) && fresh(distDensity)
      ensures fresh(axisEnvelope) && fresh(axisDensity) && fresh(peakEnvelope) && fresh(peakDensity)
      ensures fresh(eTemp) && fresh(nTemp) && fresh(kArray)
    {
      cfg := c;
      envelope := new Complex[c.nR, c.nT];
      density := new real[c.nR, c.nT];
      nextEnvelope := new Complex[c.nR, c.nT];
      nextDensity := new real[c.nR, c.nT];
      bArray := new Complex[c.nR, c.nT];
      wArray := new Complex[c.nR, c.nT];
      distEnvelope := new Complex[c.nR, c.distLimit + 1, c.nT];
      distDensity := new real[c.nR, c.distLimit + 1, c.nT];
      axisEnvelope := new Complex[c.nSteps + 1, c.nT];
      axisDensity := new real[c.nSteps + 1, c.nT];
      peakEnvelope := new Complex[c.nR, c.nSteps + 1];
      peakDensity := new real[c.nR, c.nSteps + 1];
      eTemp := new Complex[c.nR];
      nTemp := new real[c.nR];
      kArray := new int[c.distLimit + 1];
    }

    /** `set_initial_condition()` for a given initial envelope. */
    method SetInitialCondition(init: Mat<Complex>)
      requires Valid() && IsMat(init, cfg.nR, cfg.nT)
      modifies envelope, distEnvelope, distDensity, axisEnvelope, axisDensity, peakEnvelope, peakDensity, kArray
      ensures State() == Initial(old(State()), cfg, init)
    {
      ghost var s0 := State();
      WriteRows(envelope, cfg.nR, (i: nat, j: nat) => if i < |init| && j < |init[i]| then init[i][j] else Zero);
      SameEntries(Snapshot(envelope), init, cfg.nR, cfg.nT);
      assert State() == s0.(envelope := init);
      StoreInitialSnapshots();
      StoreLines(0, cfg.peakNode, cfg.peakNode);
    }

    /** The snapshot half of `set_initial_condition()`: slot 0 and `k_array[0]`. */
    method StoreInitialSnapshots()
      requires Valid()
      modifies distEnvelope, distDensity, kArray
      ensures var s := old(State());
        State() == s.(distEnvelope := s.distEnvelope[0 := s.envelope],
                      distDensity := s.distDensity[0 := Zeros(cfg.nR, cfg.nT)],
                      kArray := s.kArray[0 := 0])
    {
      StoreEnvelopeSlot(0, Snapshot(envelope));
      StoreDensitySlot(0, Zeros(cfg.nR, cfg.nT));
      StoreStepNumber(0, 0);
    }

    /** `dist_envelope[:, slot, :] = m`. */
    method StoreEnvelopeSlot(slot: nat, m: Mat<Complex>)
      requires Valid() && slot <= cfg.distLimit && IsMat(m, cfg.nR, cfg.nT)
      modifies distEnvelope
      ensures var s := old(State()); State() == s.(distEnvelope := s.distEnvelope[slot := m])
    {
      WriteSlot(distEnvelope, slot, m);
    }

    /** `dist_density[:, slot, :] = m`. */
    method StoreDensitySlot(slot: nat, m: Mat<real>)
      requires Valid() && slot <= cfg.distLimit && IsMat(m, cfg.nR, cfg.nT)
      modifies distDensity
      ensures var s := old(State()); State() == s.(distDensity := s.distDensity[slot := m])
    {
      WriteSlot(distDensity, slot, m);
    }

    /** `k_array[slot] = v`. */
    method StoreStepNumber(slot: nat, v: int)
      requires Valid() && slot <= cfg.distLimit
      modifies kArray
      ensures var s := old(State()); State() == s.(kArray := s.kArray[slot := v])
    {
      kArray[slot] := v;
    }

    /** The stores shared by `set_initial_condition()` and `cheap_diagnostics(step)`. */
    method StoreLines(step: nat, jE: nat, jN: nat)
      requires Valid() && step <= cfg.nSteps && jE < cfg.nT && jN < cfg.nT
      modifies axisEnvelope, axisDensity, peakEnvelope, peakDensity
      ensures State() == Lines(old(State()), cfg, step, jE, jN)
    {
      StoreAxisLines(step);
      StorePeakLines(step, jE, jN);
    }

    /** The axis half of the line records: row `step` of both axis records. */
    method StoreAxisLines(step: nat)
      requires Valid() && step <= cfg.nSteps
      modifies axisEnvelope, axisDensity
      ensures var s := old(State());
        State() == s.(axisEnvelope := s.axisEnvelope[step := s.envelope[cfg.axisNode]],
                      axisDensity := s.axisDensity[step := s.density[cfg.axisNode]])
    {
      var axisE, axisN := Row(envelope, cfg.axisNode), Row(density, cfg.axisNode);
      WriteRow(axisEnvelope, step, axisE);
      WriteRow(axisDensity, step, axisN);
    }

    /** The peak half of the line records: column `step` of both peak records. */
    method StorePeakLines(step: nat, jE: nat, jN: nat)
      requires Valid() && step <= cfg.nSteps && jE < cfg.nT && jN < cfg.nT
      modifies peakEnvelope, peakDensity
      ensures var s := old(State());
        State() == s.(peakEnvelope := WithColumn(s.peakEnvelope, step, Col(s.envelope, jE)),
                      peakDensity := WithColumn(s.peakDensity, step, Col(s.density, jN)))
    {
      ghost var s0 := State();
      var peakE, peakN := Column(envelope, jE), Column(density, jN);
      assert peakE == Col(s0.envelope, jE) && peakN == Col(s0.density, jN);
      WriteColumn(peakEnvelope, step, peakE);
      WriteColumn(peakDensity, step, peakN);
    }

    /** `solve_step()`. */
    method SolveStep(tr: Transforms)
      requires Valid() && SolveKeepsLength(tr)
      modifies envelope, density, nextEnvelope, nextDensity, bArray, wArray
      ensures State() == StepSpec(old(State()), cfg, tr)
    {
      DensityAndDispersion(tr);
      NonlinearAndEnvelope(tr);
      CopyNext();
    }

    /** The first half of `solve_step()`: `solve_density` and `solve_dispersion`. */
    method DensityAndDispersion(tr: Transforms)
      requires Valid()
      modifies density, nextDensity, bArray
      ensures var s := old(State());
        State() == s.(density := ClearedFirstColumn(s.density, cfg.nR, cfg.nT),
                      nextDensity := DensitySweep(s.envelope, s.density, s.nextDensity, cfg.nR, cfg.nT, cfg.nT,
                                                  cfg.dens, cfg.dt, cfg.dt2, cfg.dt6),
                      b := Dispersion(tr, cfg.ops.fourier, s.envelope, cfg.nR, cfg.nT))
    {
      var c := cfg;
      SolveDensity(envelope, density, nTemp, nextDensity, c.nT, c.dens, c.dt, c.dt2, c.dt6);
      SolveDispersion(tr, c.ops.fourier, envelope, bArray);
    }

    /** The second half of `solve_step()`: `solve_nonlinear` and `solve_envelope`. */
    method NonlinearAndEnvelope(tr: Transforms)
      requires Valid() && SolveKeepsLength(tr)
      modifies nextEnvelope, wArray
      ensures var s := old(State());
        var w := NonlinearSweep(s.b, s.nextDensity, s.w, cfg.nR, cfg.nT, cfg.nT, cfg.field, cfg.dz, cfg.dz2, cfg.dz6);
        State() == s.(w := w, nextEnvelope := EnvelopeSweep(tr, cfg.ops.left, cfg.ops.right, s.b, w, s.nextEnvelope,
                                                             cfg.nT, cfg.nT))
    {
      var c := cfg;
      SolveNonlinear(bArray, nextDensity, eTemp, wArray, c.nT, c.field, c.dz, c.dz2, c.dz6);
      SolveEnvelope(tr, c.ops.left, c.ops.right, c.nT, bArray, wArray, nextEnvelope);
    }

    /** `np.copyto(envelope, next_envelope)` and `np.copyto(density, next_density)`. */
    method CopyNext()
      requires Valid()
      modifies envelope, density
      ensures var s := old(State()); State() == s.(envelope := s.nextEnvelope, density := s.nextDensity)
    {
      CopyInto(nextEnvelope, envelope);
      CopyInto(nextDensity, density);
    }

    /** `cheap_diagnostics(step)`; an exit is returned instead of ending the process. */
    method CheapDiagnostics(lib: Library, step: nat) returns (outcome: Outcome)
      requires Valid() && step <= cfg.nSteps
      modifies axisEnvelope, axisDensity, peakEnvelope, peakDensity
      ensures (State(), outcome) == Cheap(old(State()), cfg, lib, step)
    {
      var intensityPeak := FirstArgMax(AxisModulus(lib, Row(envelope, cfg.axisNode)));
      var densityPeak := FirstArgMax(Row(density, cfg.axisNode));
      StoreLines(step, intensityPeak, densityPeak);
      if !EnvelopeFinite(lib, Snapshot(envelope)) {
        outcome := NonFiniteEnvelope;
      } else if !DensityFinite(lib, Snapshot(density)) {
        outcome := NonFiniteDensity;
      } else {
        outcome := Continue;
      }
    }

    /** `expensive_diagnostics(step)`. */
    method ExpensiveDiagnostics(step: nat)
      requires Valid() && 1 <= step <= cfg.distLimit
      modifies distEnvelope, distDensity, kArray
      ensures State() == Expensive(old(State()), cfg, step)
    {
      StoreEnvelopeSlot(step, Snapshot(envelope));
      StoreDensitySlot(step, Snapshot(density));
      StoreStepNumber(step, kArray[step - 1] + cfg.dli);
    }

    /** The body of the inner loop of `propagate`: `solve_step()` then `cheap_diagnostics(step)`. */
    method StepAndRecord(lib: Library, tr: Transforms, step: nat, ghost adv: Advance) returns (outcome: Outcome)
      requires Valid() && SolveKeepsLength(tr) && step <= cfg.nSteps && Models(adv, cfg, lib, tr)
      modifies envelope, density, nextEnvelope, nextDensity, bArray, wArray
      modifies axisEnvelope, axisDensity, peakEnvelope, peakDensity
      ensures (State(), outcome) == adv(old(State()), step)
    {
      ghost var before := State();
      SolveStep(tr);
      outcome := CheapDiagnostics(lib, step);
      assert Applied(before, step);
    }

    /** The inner loop of `propagate()` for block `mm`, then `expensive_diagnostics(mm)`. */
    method RunBlock(lib: Library, tr: Transforms, mm: nat, ghost adv: Advance) returns (outcome: Outcome)
      requires Valid() && SolveKeepsLength(tr) && 1 <= mm <= cfg.distLimit
      requires Models(adv, cfg, lib, tr) && KeepsSnapshots(adv)
      modifies envelope, density, nextEnvelope, nextDensity, bArray, wArray, distEnvelope, distDensity
      modifies axisEnvelope, axisDensity, peakEnvelope, peakDensity, kArray
      ensures (State(), outcome) == Block(old(State()), cfg, adv, mm)
    {
      BlockFits(cfg, mm);
      outcome := BlockSteps(lib, tr, mm, adv);
      if outcome != Continue {
        return;
      }
      ExpensiveDiagnostics(mm);
    }

    /** The inner loop of `propagate()` for block `mm`: steps `(mm−1)·dist_limitin + 1 ..`, up to an exit. */
    method BlockSteps(lib: Library, tr: Transforms, mm: nat, ghost adv: Advance) returns (outcome: Outcome)
      requires Valid() && SolveKeepsLength(tr) && 1 <= mm && (mm - 1) * cfg.dli + cfg.dli <= cfg.nSteps
      requires Models(adv, cfg, lib, tr) && KeepsSnapshots(adv)
      modifies envelope, density, nextEnvelope, nextDensity, bArray, wArray
      modifies axisEnvelope, axisDensity, peakEnvelope, peakDensity
      ensures (State(), outcome) == Steps(old(State()), adv, (mm - 1) * cfg.dli, cfg.dli)
    {
      ghost var start := State();
      ghost var base: nat := (mm - 1) * cfg.dli;
      var nn := 1;
      while nn <= cfg.dli
        invariant 1 <= nn <= cfg.dli + 1
        invariant (State(), Continue) == Steps(start, adv, base, nn - 1)
      {
        outcome := InnerStep(lib, tr, mm, nn, adv, start);
        if outcome != Continue {
          StepsExitIsFinal(start, adv, base, nn, cfg.dli);
          return;
        }
        nn := nn + 1;
      }
      outcome := Continue;
    }

    /** Iteration `nn` of the inner loop of block `mm`: step `kk` and its diagnostics. */
    method InnerStep(lib: Library, tr: Transforms, mm: nat, nn: nat, ghost adv: Advance, ghost start: WaterState)
      returns (outcome: Outcome)
      requires Valid() && SolveKeepsLength(tr) && 1 <= mm && 1 <= nn && (mm - 1) * cfg.dli + nn <= cfg.nSteps
      requires Models(adv, cfg, lib, tr) && KeepsSnapshots(adv)
      requires (State(), Continue) == Steps(start, adv, (mm - 1) * cfg.dli, nn - 1)
      modifies envelope, density, nextEnvelope, nextDensity, bArray, wArray
      modifies axisEnvelope, axisDensity, peakEnvelope, peakDensity
      ensures (State(), outcome) == Steps(start, adv, (mm - 1) * cfg.dli, nn)
    {
      var kk := StepNumber(cfg.dli, mm, nn);
      outcome := StepAndRecord(lib, tr, kk, adv);
    }

    /** Iteration `mm` of the outer loop of `propagate()`: block `mm` after the first `mm − 1`. */
    method NextBlock(lib: Library, tr: Transforms, mm: nat, ghost adv: Advance, ghost s0: WaterState)
      returns (outcome: Outcome)
      requires Valid() && SolveKeepsLength(tr) && 1 <= mm <= cfg.distLimit
      requires Models(adv, cfg, lib, tr) && KeepsSnapshots(adv) && Shaped(s0, cfg)
      requires (State(), Continue) == Blocks(s0, cfg, adv, mm - 1)
      modifies envelope, density, nextEnvelope, nextDensity, bArray, wArray, distEnvelope, distDensity
      modifies axisEnvelope, axisDensity, peakEnvelope, peakDensity, kArray
      ensures (State(), outcome) == Blocks(s0, cfg, adv, mm)
    {
      outcome := RunBlock(lib, tr, mm, adv);
    }

    /**
     * `propagate()`: `dist_limit` blocks of `dist_limitin` steps, a snapshot
     * after each block; `adv` is the step the model prescribes.
     */
    method Propagate(lib: Library, tr: Transforms, ghost adv: Advance) returns (outcome: Outcome)
      requires Valid() && SolveKeepsLength(tr) && Models(adv, cfg, lib, tr)
      modifies envelope, density, nextEnvelope, nextDensity, bArray, wArray, distEnvelope, distDensity
      modifies axisEnvelope, axisDensity, peakEnvelope, peakDensity, kArray
      ensures (ModelKeepsSnapshots(adv, cfg, lib, tr);
        (State(), outcome) == Blocks(old(State()), cfg, adv, cfg.distLimit))
    {
      ghost var s0 := old(State());
      ModelKeepsSnapshots(adv, cfg, lib, tr);
      var mm := 1;
      while mm <= cfg.distLimit
        invariant 1 <= mm <= cfg.distLimit + 1
        invariant (State(), Continue) == Blocks(s0, cfg, adv, mm - 1)
      {
        outcome := NextBlock(lib, tr, mm, adv, s0);
        if outcome != Continue {
          ExitIsFinal(s0, cfg, adv, mm, cfg.distLimit);
          return;
        }
        mm := mm + 1;
      }
      outcome := Continue;
    }
  }
}
