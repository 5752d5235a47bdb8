/**
 * The diagnostics of the `aiurpy` solvers: `validate_step`, which rejects
 * a step whose envelope or density holds a non-finite value; the per-step
 * records of `cheap_diagnostics`; the snapshot store and the snapshot
 * index recurrence of `expensive_diagnostics`; and the window of steps
 * that `inter_diagnostics` copies into the monitoring file.
 */
module Diagnostics {
  import opened Numerics
  import opened Grid
  import FcnSolver

  /** `INT_MONITOR`: the monitoring file is brought up to date every this many steps. */
  const IntMonitor: nat := 100

  // ---------------------------------------------------------------------
  // validate_step

  /** `np.any(~ok(row))`, scanned from the left. */
  function AnyFailingIn<T>(row: seq<T>, ok: T -> bool): (b: bool)
    ensures b <==> exists j :: 0 <= j < |row| && !ok(row[j])
  {
    if |row| == 0 then false
    else if !ok(row[0]) then true
    else
      var rest := AnyFailingIn(row[1..], ok);
      assert forall j :: 1 <= j < |row| ==> row[j] == row[1..][j - 1];
      rest
  }

  /** `np.any(~ok(m))`, scanned row by row. */
  function AnyFailing<T>(m: Mat<T>, ok: T -> bool): (b: bool)
    ensures b <==> exists i, j :: 0 <= i < |m| && 0 <= j < |m[i]| && !ok(m[i][j])
  {
    if |m| == 0 then false
    else if AnyFailingIn(m[0], ok) then true
    else
      var rest := AnyFailing(m[1..], ok);
      assert forall i :: 1 <= i < |m| ==> m[i] == m[1..][i - 1];
      rest
  }

  /** The field a failed check names. */
  datatype Field = Envelope | Density

  /**
   * How `validate_step` ends: it returns True; it prints a warning and
   * returns False; or it prints an error and exits the program.
   */
  datatype Verdict = Passed | Warned(field: Field) | Exited(field: Field)

  /**
   * `validate_step(solver, exit_on_error)`: the envelope is checked before
   * the density, and the first field holding a non-finite value decides
   * the verdict.
   */
  function ValidateStep(lib: Library, envelope: Mat<Complex>, density: Mat<real>, exitOnError: bool): (v: Verdict)
    ensures v == Passed <==> FcnSolver.EnvelopeFinite(lib, envelope) && FcnSolver.DensityFinite(lib, density)
    ensures v != Passed ==> (v.Exited? <==> exitOnError)
    ensures v != Passed && v.field == Envelope <==> !FcnSolver.EnvelopeFinite(lib, envelope)
    ensures v != Passed && v.field == Density <==>
      FcnSolver.EnvelopeFinite(lib, envelope) && !FcnSolver.DensityFinite(lib, density)
  {
    if AnyFailing(envelope, (z: Complex) => FiniteComplex(lib, z)) then
      if exitOnError then Exited(Envelope) else Warned(Envelope)
    else if AnyFailing(density, (x: real) => lib.finite(x)) then
      if exitOnError then Exited(Density) else Warned(Density)
    else Passed
  }

  /** With `exit_on_error = False` the returned boolean is "every value of both fields is finite". */
  lemma ReturnsFinite(lib: Library, envelope: Mat<Complex>, density: Mat<real>)
    ensures var v := ValidateStep(lib, envelope, density, false);
      && !v.Exited?
      && ((v == Passed) <==>
            && (forall i, j :: 0 <= i < |envelope| && 0 <= j < |envelope[i]| ==> FiniteComplex(lib, envelope[i][j]))
            && (forall i, j :: 0 <= i < |density| && 0 <= j < |density[i]| ==> lib.finite(density[i][j])))
  {
  }

  // ---------------------------------------------------------------------
  // The solver's buffers the diagnostics touch

  /**
   * Shapes: `nR` radial and `nT` time nodes, `zSteps` propagation steps,
   * `nSlots` snapshot slots and `z_steps_per_snapshot`.
   */
  datatype Dims = Dims(nR: nat, nT: nat, zSteps: nat, nSlots: nat, perSnapshot: int)

  predicate DimsOk(d: Dims)
  {
    d.nR >= 1 && d.nT >= 1 && d.nSlots >= 1
  }

  /**
   * The values of `envelope_rt`, `density_rt`, the axis records
   * `envelope_r0_zt` and `density_r0_zt`, the peak records `envelope_tp_rz`
   * and `density_tp_rz`, `fluence_rz`, `fluence_r`, `radius_z`, `radius`,
   * the snapshot slots of `envelope_snapshot_rzt` and
   * `density_snapshot_rzt`, and `snapshot_z_index`.
   */
  datatype Records = Records(
    envelope: Mat<Complex>, density: Mat<real>,
    envelopeAxis: Mat<Complex>, densityAxis: Mat<real>,
    envelopePeak: Mat<Complex>, densityPeak: Mat<real>,
    fluence: Mat<real>, fluenceR: seq<real>, radiusZ: seq<real>, radius: seq<real>,
    envelopeSnapshots: seq<Mat<Complex>>, densitySnapshots: seq<Mat<real>>,
    snapshotIndex: seq<int>)

  predicate Shaped(s: Records, d: Dims)
  {
    && IsMat(s.envelope, d.nR, d.nT) && IsMat(s.density, d.nR, d.nT)
    && IsMat(s.envelopeAxis, d.zSteps + 1, d.nT) && IsMat(s.densityAxis, d.zSteps + 1, d.nT)
    && IsMat(s.envelopePeak, d.nR, d.zSteps + 1) && IsMat(s.densityPeak, d.nR, d.zSteps + 1)
    && IsMat(s.fluence, d.nR, d.zSteps + 1) && |s.fluenceR| == d.nR
    && |s.radiusZ| == d.zSteps + 1 && |s.radius| >= 1
    && |s.envelopeSnapshots| == d.nSlots && |s.densitySnapshots| == d.nSlots
    && (forall k :: 0 <= k < d.nSlots ==> IsMat(s.envelopeSnapshots[k], d.nR, d.nT))
    && (forall k :: 0 <= k < d.nSlots ==> IsMat(s.densitySnapshots[k], d.nR, d.nT))
    && |s.snapshotIndex| == d.nSlots
  }

  // ---------------------------------------------------------------------
  // cheap_diagnostics

  /** The time node of the envelope's peak on axis row 0: the first maximum of `|E|`. */
  function EnvelopePeakNode(s: Records, d: Dims, lib: Library): (j: nat)
    requires DimsOk(d) && Shaped(s, d)
    ensures j < d.nT
  {
    FirstArgMax(FcnSolver.AxisModulus(lib, s.envelope[0]))
  }

  /** The time node of the density's peak on axis row 0. */
  function DensityPeakNode(s: Records, d: Dims): (j: nat)
    requires DimsOk(d) && Shaped(s, d)
    ensures j < d.nT
  {
    FirstArgMax(s.density[0])
  }

  /**
   * The stores of `cheap_diagnostics(solver, step)`: axis row 0 of both
   * fields at row `step`, the radial columns through the two peaks, the
   * fluence column and the axis radius.
   */
  function Record(s: Records, d: Dims, lib: Library, step: nat): (r: Records)
    requires DimsOk(d) && Shaped(s, d) && step <= d.zSteps
    ensures Shaped(r, d)
  {
    s.(envelopeAxis := s.envelopeAxis[step := s.envelope[0]],
       envelopePeak := WithColumn(s.envelopePeak, step, Col(s.envelope, EnvelopePeakNode(s, d, lib))),
       densityAxis := s.densityAxis[step := s.density[0]],
       densityPeak := WithColumn(s.densityPeak, step, Col(s.density, DensityPeakNode(s, d))),
       fluence := WithColumn(s.fluence, step, s.fluenceR),
       radiusZ := s.radiusZ[step := s.radius[0]])
  }

  /** `cheap_diagnostics(solver, step)`: validate with `exit_on_error = True`, then record. */
  function Cheap(s: Records, d: Dims, lib: Library, step: nat): (r: (Records, Verdict))
    requires DimsOk(d) && Shaped(s, d) && step <= d.zSteps
    ensures Shaped(r.0, d)
  {
    var v := ValidateStep(lib, s.envelope, s.density, true);
    if v == Passed then (Record(s, d, lib, step), v) else (s, v)
  }

  /** A step that fails validation exits before anything is recorded. */
  lemma InvalidStepRecordsNothing(s: Records, d: Dims, lib: Library, step: nat)
    requires DimsOk(d) && Shaped(s, d) && step <= d.zSteps
    ensures var r := Cheap(s, d, lib, step);
      && (r.1 == Passed <==> FcnSolver.EnvelopeFinite(lib, s.envelope) && FcnSolver.DensityFinite(lib, s.density))
      && (r.1 != Passed ==> r.1.Exited? && r.0 == s)
  {
  }

  /**
   * A valid step records axis row 0 of both fields at row `step`, the
   * radial columns through the first maximum of `|E|` and of the density
   * on axis row 0, `fluence_r` at column `step` and `radius[0]` at
   * `radius_z[step]`; every other entry is kept.
   */
  lemma ValidStepRecords(s: Records, d: Dims, lib: Library, step: nat)
    requires DimsOk(d) && Shaped(s, d) && step <= d.zSteps
    requires FcnSolver.EnvelopeFinite(lib, s.envelope) && FcnSolver.DensityFinite(lib, s.density)
    ensures var r := Cheap(s, d, lib, step).0;
      var aE, aN := FcnSolver.AxisModulus(lib, s.envelope[0]), s.density[0];
      var jE, jN := EnvelopePeakNode(s, d, lib), DensityPeakNode(s, d);
      && (forall j :: 0 <= j < d.nT ==> aE[j] <= aE[jE] && aN[j] <= aN[jN])
      && (forall j :: 0 <= j < jE ==> aE[j] < aE[jE])
      && (forall j :: 0 <= j < jN ==> aN[j] < aN[jN])
      && r.envelopeAxis == s.envelopeAxis[step := s.envelope[0]]
      && r.densityAxis == s.densityAxis[step := s.density[0]]
      && (forall i, q :: 0 <= i < d.nR && 0 <= q <= d.zSteps ==>
            && r.envelopePeak[i][q] == (if q == step then s.envelope[i][jE] else s.envelopePeak[i][q])
            && r.densityPeak[i][q] == (if q == step then s.density[i][jN] else s.densityPeak[i][q])
            && r.fluence[i][q] == (if q == step then s.fluenceR[i] else s.fluence[i][q]))
      && r.radiusZ == s.radiusZ[step := s.radius[0]]
      && r.envelope == s.envelope && r.density == s.density
      && r.envelopeSnapshots == s.envelopeSnapshots && r.densitySnapshots == s.densitySnapshots
      && r.snapshotIndex == s.snapshotIndex && r.fluenceR == s.fluenceR && r.radius == s.radius
  {
  }

  // ---------------------------------------------------------------------
  // expensive_diagnostics

  /**
   * `snapshot_z_index[step] = snapshot_z_index[step - 1] + z_steps_per_snapshot`,
   * with Python's reading of the index `-1` at `step == 0`.
   */
  function NextIndex(idx: seq<int>, step: nat, per: int): (r: seq<int>)
    requires step < |idx|
    ensures |r| == |idx|
  {
    idx[step := idx[PyIndex(step - 1, |idx|)] + per]
  }

  /** `expensive_diagnostics(solver, step)`: both fields into slot `step` and the next snapshot index. */
  function Expensive(s: Records, d: Dims, step: nat): (r: Records)
    requires DimsOk(d) && Shaped(s, d) && step < d.nSlots
    ensures Shaped(r, d)
  {
    s.(envelopeSnapshots := s.envelopeSnapshots[step := s.envelope],
       densitySnapshots := s.densitySnapshots[step := s.density],
       snapshotIndex := NextIndex(s.snapshotIndex, step, d.perSnapshot))
  }

  /** At `step == 0` the index read is the last slot's. */
  lemma FirstSlotReadsLast(idx: seq<int>, per: int)
    requires |idx| >= 1
    ensures NextIndex(idx, 0, per)[0] == idx[|idx| - 1] + per
    ensures forall k :: 1 <= k < |idx| ==> NextIndex(idx, 0, per)[k] == idx[k]
  {
  }

  /** `snapshot_z_index` after the calls for steps `1..k`, in order. */
  function IndexRun(idx: seq<int>, per: int, k: nat): (r: seq<int>)
    requires k < |idx|
    ensures |r| == |idx|
  {
    if k == 0 then idx else NextIndex(IndexRun(idx, per, k - 1), k, per)
  }

  /**
   * After the calls for steps `1..k`, slot `j <= k` holds
   * `snapshot_z_index[0] + j * z_steps_per_snapshot` and the later slots
   * are untouched.
   */
  lemma {:induction false} IndexRecurrence(idx: seq<int>, per: int, k: nat)
    requires k < |idx|
    ensures forall j :: 0 <= j <= k ==> IndexRun(idx, per, k)[j] == idx[0] + j * per
    ensures forall j :: k < j < |idx| ==> IndexRun(idx, per, k)[j] == idx[j]
  {
    if k > 0 {
      IndexRecurrence(idx, per, k - 1);
      var prev := IndexRun(idx, per, k - 1);
      assert prev[k - 1] == idx[0] + (k - 1) * per;
      assert IndexRun(idx, per, k)[k] == idx[0] + (k - 1) * per + per;
    }
  }

  // ---------------------------------------------------------------------
  // inter_diagnostics: the monitoring file

  /** The monitoring file's `envelope/peak_rz` dataset and `metadata/last_step`. */
  datatype MonitorState = MonitorState(peak: Mat<Complex>, lastStep: nat)

  /** Whether `step` brings the file up to date: a multiple of `INT_MONITOR`, or the last step. */
  predicate Monitored(step: nat, zSteps: nat)
  {
    step % IntMonitor == 0 || step == zSteps
  }

  /** A matrix of zeros, the fill value of a new dataset. */
  function ZeroMat(rows: nat, cols: nat): (m: Mat<Complex>)
    ensures IsMat(m, rows, cols) && forall i, j :: 0 <= i < rows && 0 <= j < cols ==> m[i][j] == Zero
  {
    seq(rows, _ => seq(cols, _ => Zero))
  }

  /** `peak[:, lo:hi] = tp[:, lo:hi]`. */
  function CopyWindow(peak: Mat<Complex>, tp: Mat<Complex>, lo: nat, hi: nat, rows: nat, cols: nat): (r: Mat<Complex>)
    requires IsMat(peak, rows, cols) && IsMat(tp, rows, cols)
    ensures IsMat(r, rows, cols)
    ensures forall i, j :: 0 <= i < rows && 0 <= j < cols ==> r[i][j] == if lo <= j < hi then tp[i][j] else peak[i][j]
  {
    seq(rows, i requires 0 <= i < rows => seq(cols, j requires 0 <= j < cols => if lo <= j < hi then tp[i][j] else peak[i][j]))
  }

  /**
   * `inter_diagnostics(solver, step)` given `envelope_tp_rz` as `tp`: at
   * step 1 a new file with a zero dataset and `last_step = 0`; on a
   * monitored step past `last_step`, the columns `last_step + 1 .. step`
   * are copied and `last_step` becomes `step`.
   */
  function Inter(f: MonitorState, tp: Mat<Complex>, step: nat, rows: nat, zSteps: nat): (r: MonitorState)
    requires IsMat(f.peak, rows, zSteps + 1) && IsMat(tp, rows, zSteps + 1) && step <= zSteps
    ensures IsMat(r.peak, rows, zSteps + 1)
  {
    var g := if step == 1 then MonitorState(ZeroMat(rows, zSteps + 1), 0) else f;
    if Monitored(step, zSteps) && step > g.lastStep then
      MonitorState(CopyWindow(g.peak, tp, g.lastStep + 1, step + 1, rows, zSteps + 1), step)
    else g
  }

  /** The last monitored step in `1..k`, or 0. */
  function LastMonitored(k: nat, zSteps: nat): (m: nat)
    ensures m <= k && (m == 0 || Monitored(m, zSteps))
    ensures forall j :: m < j <= k ==> !Monitored(j, zSteps)
  {
    if k == 0 then 0 else if Monitored(k, zSteps) then k else LastMonitored(k - 1, zSteps)
  }

  /** The file after the calls for steps `1..k`, where the call for step `j` sees `tps[j]`. */
  function InterRun(f: MonitorState, tps: seq<Mat<Complex>>, rows: nat, zSteps: nat, k: nat): (r: MonitorState)
    requires IsMat(f.peak, rows, zSteps + 1) && k < |tps| && k <= zSteps
    requires forall j :: 0 <= j < |tps| ==> IsMat(tps[j], rows, zSteps + 1)
    ensures IsMat(r.peak, rows, zSteps + 1)
  {
    if k == 0 then f else Inter(InterRun(f, tps, rows, zSteps, k - 1), tps[k], k, rows, zSteps)
  }

  /**
   * Each column of `envelope_tp_rz` is final once its step has been
   * recorded: columns `0..j` seen at step `j` already hold their values
   * at step `k`.
   */
  predicate WrittenOnce(tps: seq<Mat<Complex>>, rows: nat, k: nat)
    requires k < |tps|
  {
    forall j, i, c ::
      (1 <= j <= k && 0 <= i < rows && 0 <= c <= j && i < |tps[j]| && c < |tps[j][i]| && i < |tps[k]| && c < |tps[k][i]|)
      ==> tps[j][i][c] == tps[k][i][c]
  }

  /**
   * After the calls for steps `1..k`, `last_step` is the last monitored
   * step so far, the file holds columns `1..last_step` of
   * `envelope_tp_rz`, and every other column, column 0 included, holds
   * the dataset's fill value.
   */
  lemma {:induction false} MonitorWindow(f: MonitorState, tps: seq<Mat<Complex>>, rows: nat, zSteps: nat, k: nat)
    requires IsMat(f.peak, rows, zSteps + 1) && 1 <= k < |tps| && k <= zSteps
    requires forall j :: 0 <= j < |tps| ==> IsMat(tps[j], rows, zSteps + 1)
    requires WrittenOnce(tps, rows, k)
    ensures var r := InterRun(f, tps, rows, zSteps, k);
      && r.lastStep == LastMonitored(k, zSteps)
      && forall i, c :: 0 <= i < rows && 0 <= c <= zSteps ==>
           r.peak[i][c] == if 1 <= c <= r.lastStep then tps[k][i][c] else Zero
  {
    var r := InterRun(f, tps, rows, zSteps, k);
    if k == 1 {
    } else {
      assert WrittenOnce(tps, rows, k - 1) by {
        forall j, i, c | 1 <= j <= k - 1 && 0 <= i < rows && 0 <= c <= j
          ensures tps[j][i][c] == tps[k - 1][i][c]
        {
          assert IsMat(tps[j], rows, zSteps + 1) && IsMat(tps[k - 1], rows, zSteps + 1) && IsMat(tps[k], rows, zSteps + 1);
          assert tps[j][i][c] == tps[k][i][c];
          assert tps[k - 1][i][c] == tps[k][i][c];
        }
      }
      MonitorWindow(f, tps, rows, zSteps, k - 1);
      var q := InterRun(f, tps, rows, zSteps, k - 1);
      assert r == Inter(q, tps[k], k, rows, zSteps);
      forall i, c | 0 <= i < rows && 0 <= c <= zSteps
        ensures r.peak[i][c] == if 1 <= c <= r.lastStep then tps[k][i][c] else Zero
      {
        if 1 <= c <= q.lastStep {
          assert q.peak[i][c] == tps[k - 1][i][c];
        }
      }
    }
  }

  // ---------------------------------------------------------------------
  // The buffers

  /** The solver arrays the diagnostics read and write. */
  class DiagnosticBuffers {
    const d: Dims
    const envelope: array2<Complex>
    const density: array2<real>
    const envelopeAxis: array2<Complex>
    const densityAxis: array2<real>
    const envelopePeak: array2<Complex>
    const densityPeak: array2<real>
    const fluence: array2<real>
    const fluenceR: array<real>
    const radiusZ: array<real>
    const radius: array<real>
    const envelopeSnapshots: array3<Complex>
    const densitySnapshots: array3<real>
    const snapshotIndex: array<int>

    ghost predicate Valid()
      reads this
    {
      && DimsOk(d)
      && envelope.Length0 == d.nR && envelope.Length1 == d.nT
      && density.Length0 == d.nR && density.Length1 == d.nT
      && envelopeAxis.Length0 == d.zSteps + 1 && envelopeAxis.Length1 == d.nT
      && densityAxis.Length0 == d.zSteps + 1 && densityAxis.Length1 == d.nT
      && envelopePeak.Length0 == d.nR && envelopePeak.Length1 == d.zSteps + 1
      && densityPeak.Length0 == d.nR && densityPeak.Length1 == d.zSteps + 1
      && fluence.Length0 == d.nR && fluence.Length1 == d.zSteps + 1
      && fluenceR.Length == d.nR && radiusZ.Length == d.zSteps + 1 && radius.Length >= 1
      && envelopeSnapshots.Length0 == d.nR && envelopeSnapshots.Length1 == d.nSlots && envelopeSnapshots.Length2 == d.nT
      && densitySnapshots.Length0 == d.nR && densitySnapshots.Length1 == d.nSlots && densitySnapshots.Length2 == d.nT
      && snapshotIndex.Length == d.nSlots
      && envelope != envelopeAxis && envelope != envelopePeak && envelopeAxis != envelopePeak
      && density != densityAxis && density != densityPeak && density != fluence
      && densityAxis != densityPeak && densityAxis != fluence && densityPeak != fluence
      && fluenceR != radiusZ && radius != radiusZ
    }

    function State(): (s: Records)
      reads this, envelope, density, envelopeAxis, densityAxis, envelopePeak, densityPeak, fluence
      reads fluenceR, radiusZ, radius, envelopeSnapshots, densitySnapshots, snapshotIndex
      requires Valid()
      ensures Shaped(s, d)
    {
      Records(Snapshot(envelope), Snapshot(density), Snapshot(envelopeAxis), Snapshot(densityAxis),
              Snapshot(envelopePeak), Snapshot(densityPeak), Snapshot(fluence), fluenceR[..], radiusZ[..],
              radius[..], Snapshot3(envelopeSnapshots), Snapshot3(densitySnapshots), snapshotIndex[..])
    }

    /** The envelope's axis row and peak column of `cheap_diagnostics`. */
    method RecordEnvelope(lib: Library, step: nat)
      requires Valid() && step <= d.zSteps
      modifies envelopeAxis, envelopePeak
      ensures var s := old(State());
        State() == s.(envelopeAxis := s.envelopeAxis[step := s.envelope[0]],
                      envelopePeak := WithColumn(s.envelopePeak, step, Col(s.envelope, EnvelopePeakNode(s, d, lib))))
    {
      var axis := Row(envelope, 0);
      assert axis == Snapshot(envelope)[0];
      var j := FirstArgMax(FcnSolver.AxisModulus(lib, axis));
      WriteRow(envelopeAxis, step, axis);
      WriteColumn(envelopePeak, step, Column(envelope, j));
      assert Column(envelope, j) == Col(Snapshot(envelope), j);
    }

    /** The density's axis row and peak column of `cheap_diagnostics`. */
    method RecordDensity(step: nat)
      requires Valid() && step <= d.zSteps
      modifies densityAxis, densityPeak
      ensures var s := old(State());
        State() == s.(densityAxis := s.densityAxis[step := s.density[0]],
                      densityPeak := WithColumn(s.densityPeak, step, Col(s.density, DensityPeakNode(s, d))))
    {
      var axis := Row(density, 0);
      assert axis == Snapshot(density)[0];
      var j := FirstArgMax(axis);
      WriteRow(densityAxis, step, axis);
      WriteColumn(densityPeak, step, Column(density, j));
      assert Column(density, j) == Col(Snapshot(density), j);
    }

    /** `fluence_rz[:, step] = fluence_r` and `radius_z[step] = radius[0]`. */
    method RecordFluence(step: nat)
      requires Valid() && step <= d.zSteps
      modifies fluence, radiusZ
      ensures var s := old(State());
        State() == s.(fluence := WithColumn(s.fluence, step, s.fluenceR), radiusZ := s.radiusZ[step := s.radius[0]])
    {
      WriteColumn(fluence, step, fluenceR[..]);
      radiusZ[step] := radius[0];
    }

    /** `cheap_diagnostics(solver, step)`; an `Exited` verdict stands for `sys.exit(1)`. */
    method CheapDiagnostics(lib: Library, step: nat) returns (v: Verdict)
      requires Valid() && step <= d.zSteps
      modifies envelopeAxis, envelopePeak, densityAxis, densityPeak, fluence, radiusZ
      ensures (State(), v) == Cheap(old(State()), d, lib, step)
    {
      v := ValidateStep(lib, Snapshot(envelope), Snapshot(density), true);
      if v == Passed {
        RecordEnvelope(lib, step);
        RecordDensity(step);
        RecordFluence(step);
      }
    }

    /** `expensive_diagnostics(solver, step)`. */
    method ExpensiveDiagnostics(step: nat)
      requires Valid() && step < d.nSlots
      modifies envelopeSnapshots, densitySnapshots, snapshotIndex
      ensures State() == Expensive(old(State()), d, step)
    {
      WriteSlot(envelopeSnapshots, step, Snapshot(envelope));
      WriteSlot(densitySnapshots, step, Snapshot(density));
      snapshotIndex[step] := snapshotIndex[PyIndex(step - 1, snapshotIndex.Length)] + d.perSnapshot;
    }
  }

  /** The monitoring file: its dataset and its `last_step` entry. */
  class MonitorFile {
    const rows: nat
    const zSteps: nat
    const peak: array2<Complex>
    var lastStep: nat

    ghost predicate Valid()
      reads this
    {
      peak.Length0 == rows && peak.Length1 == zSteps + 1
    }

    function State(): (f: MonitorState)
      reads this, peak
      requires Valid()
      ensures IsMat(f.peak, rows, zSteps + 1)
    {
      MonitorState(Snapshot(peak), lastStep)
    }

    /** `inter_diagnostics(solver, step)` with `envelope_tp_rz` as `tp`. */
    method InterDiagnostics(tp: array2<Complex>, step: nat)
      requires Valid() && tp.Length0 == rows && tp.Length1 == zSteps + 1 && step <= zSteps && tp != peak
      modifies this, peak
      ensures Valid()
      ensures State() == Inter(old(State()), Snapshot(tp), step, rows, zSteps)
    {
      if step == 1 {
        WriteMat(peak, ZeroMat(rows, zSteps + 1));
        lastStep := 0;
      }
      if Monitored(step, zSteps) && step > lastStep {
        WriteMat(peak, CopyWindow(Snapshot(peak), Snapshot(tp), lastStep + 1, step + 1, rows, zSteps + 1));
        lastStep := step;
      }
    }
  }
}
