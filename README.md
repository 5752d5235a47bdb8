# HASTUR propagation core in Dafny

HASTUR simulates an ultrashort laser pulse propagating through a medium such as water or air.
The pulse is described by a complex envelope `E(r, t)` on a grid of radial and temporal nodes.
Each propagation step `z → z + Δz` is split into two kinds of update:

- linear operators (diffraction and group-velocity dispersion), applied with Crank–Nicolson
  tridiagonal systems and with FFTs;
- nonlinear ones (Kerr, multiphoton absorption, plasma, the delayed Raman response), applied
  with fourth-order Runge–Kutta or Adams–Bashforth updates.

The core modelled here is these propagators and what they rely on.

- **The Crank–Nicolson operator builders.** The radial stencil `1 + 2c` on the main diagonal
  and `−c(1 ∓ 1/(2i))` beside it. The axis row `[1 + 2c, −2c]`. The outer boundary row, which
  is an identity row on the left operator and a zero row on the right one. The storage forms
  (band, DIA, CSR).
- **The per-step orchestration.**
  - `SolverFss.solve_step`;
  - the water solver `FCNSolver`;
  - the spectral Crank–Nicolson script `ffd_2d1_scn`;
  - its outdated Adams–Bashforth variant `ffdmk_2d1_scn_old`;
  - the alternating-direction script `ffdmk_2d1_adi2`.
- **The RK4 steppers.** For the water density and field, and for the Raman oscillator.
- **Ionization.** The MPI and PPT rates and the PPT series with its stopping rule.
- **The diagnostics routines.** Validation, cheap, expensive and monitoring diagnostics, and
  the run schedules they follow.

## How the model is organised

The model has one module per core file, plus three shared modules.

| module | models |
|---|---|
| `Numerics` | Complex arithmetic; `Pow`; `Ceil` and `Trunc`; a `Library` record of the foreign functions (exp, sqrt, asinh, quad, abs, isfinite) with the facts the code relies on |
| `Tridiagonal` | The tridiagonal operator, its entries, matrix–vector product, band storage and the shared Crank–Nicolson stencil |
| `Grid` | Helpers between numpy buffers (`array2`, `array3`) and their value snapshots; `FirstArgMax` (`np.argmax`) |
| `Fss` | `codes/python/acherus/solvers/fss.py` |
| `Raman` | `codes/python/acherus/mathematics/routines/raman.py` |
| `Ionization` | `codes/python/aiurpy/core/ionization.py` |
| `Diagnostics` | `codes/python/aiurpy/results/routines.py` |
| `Water` and `FcnSolver` | `phd_coding/python/cylindrical/water_2d1_fcn_rk4.py` (free functions, then the `FCNSolver` class) |
| `FfdScn` | `phd_coding/python/cylindrical/ffd_2d1_scn.py` |
| `ScnOld` | `phd_coding/python/outdated/ffdmk_2d1_scn_old.py` |
| `Adi` | `phd_coding/python/practitioners_guide/ffdmk_2d1_adi2.py` |

Each module models its source in the same form.

- **Pure operator builders and numerical kernels** are functions on values.
- **Code that fills buffers in place** is a method over `array2`/`array3` whose `ensures` ties
  the new buffer snapshot to a specification function of the old one. The stepper loops, the
  ionization stores and the solver step phases are written this way.
- **Classes and scripts whose buffers persist across steps** are classes:
  `SolverFss`, `FCNSolver`, `DiagnosticBuffers`, `MonitorFile`, and one class per script's
  module-level buffers. Each class has:
  - a `State()` snapshot;
  - one method per phase of the step, proved against a state-transition function;
  - a `Propagate` whose result is the `n`-fold run of the step function.

  The properties of the run (schedules, recorded lines, invariants) are lemmas about those
  functions.

The run lemmas speak about an arbitrary step function that `Models` the concrete one. This
keeps each method's proof small. A ghost `Stepper` function shows that such a step function
exists.

Everything the core calls but does not define is a function-valued parameter:

- FFTs and linear solves (`spsolve`, `solve_banded`);
- `np.isfinite`, exp, sqrt, asinh, `quad`;
- `np.abs` where the code uses the modulus itself: the ionization rates, the axis modulus
  that `np.argmax` scans, and the `|E|` channels of `ffdmk_2d1_scn_old`;
- the density, Raman and nonlinear routines that `solve_step` calls.

Where a property needs more, it is stated as a `requires` predicate. For example, `Solves`
says that the solver returns `x` with `A·x = rhs`.

Where the code only squares the modulus, `np.abs(x)**2` is the exact `AbsSq(x) = re² + im²`.
This is the case in the water field and density steps and in the nonlinear term of
`ffdmk_2d1_adi2`. `ScnOld.KerrMpaFactor` links the two forms: it takes
`abs(E)² = AbsSq(E)` as a hypothesis.

## Model

| member | source | states |
|---|---|---|
| Numerics.Ceil | codes/python/aiurpy/core/ionization.py:151 | `np.ceil`: the result is the least integer not below `x` |
| Numerics.Trunc | phd_coding/python/cylindrical/water_2d1_fcn_rk4.py:436 | `int(x)` truncates toward zero on both signs of `x` |
| Tridiagonal.MatVecIsDenseProduct | codes/python/acherus/solvers/fss.py:158-159 | The tridiagonal product (the DIA `@`) equals the dense row-by-column sum, for every row |
| Tridiagonal.BandRoundTrip | codes/python/acherus/solvers/fss.py:108-111 | Storing an operator in `(3, n)` band layout (upper diagonal shifted right, lower shifted left) and reading it back gives the same operator |
| Tridiagonal.CnOperatorEntries | codes/python/acherus/solvers/fss.py:95-103 | The Crank–Nicolson stencil: given main diagonal, axis entry `(0, 1)`, `−c(1 − 1/(2i))` below and `−c(1 + 1/(2i))` above in inner rows, zero `(n−1, n−2)`, zero outside the band |
| Grid.FirstArgMax | codes/python/aiurpy/results/routines.py:77-78 | `np.argmax`: the index holds the maximum, and every earlier entry is strictly smaller (the first maximum) |
| Fss.ComputeMatrix | codes/python/acherus/solvers/fss.py:74-130 | `"left"` and only `"left"` yields the band array; every other side yields a DIA operator; both have `n_r` rows |
| Fss.LeftMatrixRows | codes/python/acherus/solvers/fss.py:104-117 | The left band array holds the stencil: axis row `[1+2c, −2c]`, inner rows `−c(1∓1/(2i))`, `1+2c`, last row the identity; the band layout matches the operator entry for entry |
| Fss.RightMatrixRows | codes/python/acherus/solvers/fss.py:119-130 | The right DIA operator has the same axis and inner rows and a zero last row |
| Fss.OtherSideRows | codes/python/acherus/solvers/fss.py:95-103 | A side other than `"left"`/`"right"` gets no boundary edits: `(0, 1)` stays 0 and the whole main diagonal is `1+2c` |
| Fss.FftIndexMirror | codes/python/acherus/solvers/fss.py:136-137 | The FFT frequency of index `n−k` is the negation of that of `k` (or equal to it, at the Nyquist index) |
| Fss.DispersionSymmetric | codes/python/acherus/solvers/fss.py:134-137 | The dispersion factor `exp(−2i·disp_c·(ω·Δt)²)` takes the same value at mirrored frequency indices |
| Fss.CrankNicolsonPair | codes/python/acherus/solvers/fss.py:132-143 | `set_operators` builds `L` from `+i·diff_c` and `R` from `−i·diff_c`: `L + R = 2I` on every row but the last, where `L` has an identity row and `R` a zero row |
| Fss.CommitLeavesBuffersEqual | codes/python/acherus/solvers/fss.py:252-255 | The tuple "swap" copies `envelope_next_rt` into `envelope_rt` and then back, so after a step both buffers hold the new envelope |
| Fss.RamanOffZeroes | codes/python/acherus/solvers/fss.py:211-232 | With `use_raman` off the Raman buffer is zero everywhere after a step |
| Fss.NonRk4KeepsNonlinear | codes/python/acherus/solvers/fss.py:234-247 | With `method_nl != "RK4"` the nonlinear buffer is left as it was |
| Fss.LastRowUntouched | codes/python/acherus/solvers/fss.py:169-250 | Every `[:-1]` call leaves the last radial row of intensity, rate, sum, density, Raman derivative, split envelope and fluence unchanged, and that of Raman too when `use_raman` is on |
| Fss.EnvelopeSolvesSystem | codes/python/acherus/solvers/fss.py:153-165 | Every column of the new envelope solves `L·x = R·split + nonlinear` for the step's own split envelope and nonlinear term |
| Fss.SolverFss.ComputeDispersion | codes/python/acherus/solvers/fss.py:145-151 | Rows but the last of the split envelope become `fft(disp_exp · ifft(envelope))`; nothing else changes |
| Fss.SolverFss.ComputeEnvelope | codes/python/acherus/solvers/fss.py:153-165 | Each column of `envelope_next_rt` becomes the banded solve of `R·split + nonlinear`; nothing else changes |
| Fss.SolverFss.RunIonization | codes/python/acherus/solvers/fss.py:169-188 | Intensity, rate and sum rows but the last are set from the callees; nothing else changes |
| Fss.SolverFss.constructor | codes/python/acherus/solvers/fss.py:67-72 | Operators are `set_operators`' pair and dispersion factor; the settings are stored; buffers are fresh with `n_r × n_t` shape |
| Fss.SolverFss.RunDensity | codes/python/acherus/solvers/fss.py:189-210 | Density rows but the last come from the RK4 routine or the other method as `method_d` says |
| Fss.SolverFss.RunRaman | codes/python/acherus/solvers/fss.py:211-232 | Raman follows `use_raman` and `method_r`: RK4 sets Raman and its derivative, another method only Raman, off fills zeros |
| Fss.SolverFss.RunNonlinear | codes/python/acherus/solvers/fss.py:234-247 | The nonlinear buffer is rewritten only under `"RK4"` |
| Fss.SolverFss.RunDiagnostics | codes/python/acherus/solvers/fss.py:249-250 | Fluence rows but the last and the radius are computed from the new envelope |
| Fss.SolverFss.CommitStep | codes/python/acherus/solvers/fss.py:252-255 | The envelope takes the next envelope's contents |
| Fss.SolverFss.SolveStep | codes/python/acherus/solvers/fss.py:167-255 | One step is ionization, density, Raman, dispersion, nonlinear, envelope, diagnostics and commit, in that order, each phase writing only its own buffers |
| Raman.ZeroIsFixed | codes/python/acherus/mathematics/routines/raman.py:50-95 | One RK4 step from rest under zero intensity stays at rest |
| Raman.DarkRowStaysZero | codes/python/acherus/mathematics/routines/raman.py:31-46 | Along a row whose intensity is zero up to a node, Raman and its derivative stay zero up to that node |
| Raman.EquilibriumIsFixed | codes/python/acherus/mathematics/routines/raman.py:50-95 | Raman equal to the intensity with zero derivative is a fixed point of one RK4 step |
| Raman.EquilibriumPersists | codes/python/acherus/mathematics/routines/raman.py:31-46 | Once at equilibrium, the sweep stays there while the intensity stays constant |
| Raman.ZeroFirstColumn | codes/python/acherus/mathematics/routines/raman.py:30 | Column 0 of Raman and its derivative becomes zero; every other entry is unchanged |
| Raman.StepColumn | codes/python/acherus/mathematics/routines/raman.py:31-46 | Column `ll+1` of both arrays becomes the RK4 step from column `ll` and the intensity at `ll`; nothing else changes |
| Raman.ComputeRaman | codes/python/acherus/mathematics/routines/raman.py:8-46 | Every row's first `|t|` columns hold the sweep from zero with `dt = t[1] − t[0]`; later columns are unchanged |
| Ionization.GammaTerms | codes/python/aiurpy/core/ionization.py:204-241 | For `γ > 0`: the PPT index factor exceeds 1, `β > 0`, and `(β/2)² = γ²/(1+γ²)` |
| Ionization.PhiNonNegative | codes/python/aiurpy/core/ionization.py:175-201 | The Dawson-type integral is non-negative and is zero for non-positive bounds |
| Ionization.PartialSumMonotone | codes/python/aiurpy/core/ionization.py:157-170 | With non-negative terms the partial sums are non-negative and grow with the count |
| Ionization.TermsNonNegative | codes/python/aiurpy/core/ionization.py:157-170 | Every series term is non-negative |
| Ionization.StopCountIsFirst | codes/python/aiurpy/core/ionization.py:157-170 | The series stops at the first index whose term falls below `tol` times the running sum, or at `max_idx` |
| Ionization.SeriesShape | codes/python/aiurpy/core/ionization.py:123-172 | The PPT series starts at `ceil(ν)`, sums up to the first converged term, and is at least its first term and non-negative |
| Ionization.SumUntilConverged | codes/python/aiurpy/core/ionization.py:157-170 | The loop returns the partial sum up to the stopping count |
| Ionization.ComputeSum | codes/python/aiurpy/core/ionization.py:123-172 | `compute_sum` returns exactly the specified series |
| Ionization.MpiRateScaling | codes/python/aiurpy/core/ionization.py:74-75 | Scaling the field by `k` scales the MPI rate by `k^(2K)` |
| Ionization.UnknownModelWritesNothing | codes/python/aiurpy/core/ionization.py:116-120 | A model other than `"mpi"`/`"ppt"` raises `ValueError` and writes neither rate nor sum |
| Ionization.MpiRates | codes/python/aiurpy/core/ionization.py:74-75 | Under `"mpi"`, every rate entry is `coef·|E|^(2K)`, and the sum is untouched |
| Ionization.PptLowFieldKeepsSum | codes/python/aiurpy/core/ionization.py:100-111 | Under `"ppt"`, points whose field is below the threshold keep their previous sum |
| Ionization.PptSeriesAtPoint | codes/python/aiurpy/core/ionization.py:100-111 | At the other points the new sum is the PPT series for that point's `γ`, and it is non-negative |
| Ionization.PptRateUsesNewSum | codes/python/aiurpy/core/ionization.py:114 | Every PPT rate is computed from the sum just stored |
| Ionization.StorePptRow | codes/python/aiurpy/core/ionization.py:100-111 | One row of sums is updated point by point; other rows are unchanged |
| Ionization.StorePptSums | codes/python/aiurpy/core/ionization.py:100-111 | The sum buffer becomes the old sums overlaid with the PPT series at every above-threshold point |
| Ionization.ComputeIonization | codes/python/aiurpy/core/ionization.py:13-120 | The buffers and the outcome (return or `ValueError`) are those of the model-selecting specification |
| Water.CrankNicolsonMatrixRows | phd_coding/python/cylindrical/water_2d1_fcn_rk4.py:89-122 | The water operator has the stencil's inner and axis rows; its last row is the identity for `"left"` and zero for any other position |
| Water.SameMatricesAsFss | phd_coding/python/cylindrical/water_2d1_fcn_rk4.py:89-122 | The water builder and the FSS builder give the same operators |
| Water.SameOperatorsAsFss | phd_coding/python/cylindrical/water_2d1_fcn_rk4.py:578-608 | `setup_operators` produces the same dispersion factor and diffraction pair as FSS `set_operators` |
| Water.OperatorsArePair | phd_coding/python/cylindrical/water_2d1_fcn_rk4.py:578-608 | `L + R = 2I` except on the last row |
| Water.DarkDensityStep | phd_coding/python/cylindrical/water_2d1_fcn_rk4.py:150-180 | Where the field is zero, an RK4 density step leaves the density unchanged |
| Water.DarkDensityOperator | phd_coding/python/cylindrical/water_2d1_fcn_rk4.py:126-146 | The density right-hand side is zero where the field is zero, whatever the density |
| Water.ClearedFirstColumn | phd_coding/python/cylindrical/water_2d1_fcn_rk4.py:200 | Column 0 of the density becomes zero; the rest is unchanged |
| Water.DarkSweepShiftsDensity | phd_coding/python/cylindrical/water_2d1_fcn_rk4.py:184-209 | With no field, the sweep shifts the previous density one node in time, with zeros at nodes 0 and 1 |
| Water.DensityColumns | phd_coding/python/cylindrical/water_2d1_fcn_rk4.py:203-209 | Node `ll+1` of the next density is the RK4 step from node `ll` of the envelope and the previous density |
| Water.SolveDensity | phd_coding/python/cylindrical/water_2d1_fcn_rk4.py:184-209 | The current density's column 0 is cleared and the next density is the sweep |
| Water.FieldStepOdd | phd_coding/python/cylindrical/water_2d1_fcn_rk4.py:236-265 | The RK4 field step is odd in the envelope: `step(−E) = −step(E)` |
| Water.FieldOperatorOdd | phd_coding/python/cylindrical/water_2d1_fcn_rk4.py:213-232 | The field operator is odd in the envelope: `op(−E, n) = −op(E, n)` |
| Water.DarkFieldStep | phd_coding/python/cylindrical/water_2d1_fcn_rk4.py:236-265 | The RK4 field step maps a zero envelope to zero |
| Water.DarkSliceNoNonlinearTerm | phd_coding/python/cylindrical/water_2d1_fcn_rk4.py:269-291 | A time slice with no field gets no nonlinear term |
| Water.SolveNonlinear | phd_coding/python/cylindrical/water_2d1_fcn_rk4.py:269-291 | The nonlinear buffer becomes the RK4 sweep over all time nodes |
| Water.UnitFactorKeepsEnvelope | phd_coding/python/cylindrical/water_2d1_fcn_rk4.py:294-305 | With a unit Fourier factor and inverse transforms, dispersion leaves the envelope unchanged |
| Water.SolveDispersion | phd_coding/python/cylindrical/water_2d1_fcn_rk4.py:294-305 | `b` becomes the IFFT of the factor times the FFT of the envelope |
| Water.EnvelopeSolvesSystem | phd_coding/python/cylindrical/water_2d1_fcn_rk4.py:308-325 | Every column of the new envelope solves `L·x = R·b + w` |
| Water.SolveEnvelope | phd_coding/python/cylindrical/water_2d1_fcn_rk4.py:308-325 | The next envelope is the column-by-column solve |
| Water.BlocksFitSteps | phd_coding/python/cylindrical/water_2d1_fcn_rk4.py:419-421 | `dist_limit · dist_limitin` never exceeds `n_steps`, and equals it when `dist_limit` divides `n_steps` |
| Water.WaterDomainFacts | phd_coding/python/cylindrical/water_2d1_fcn_rk4.py:389-456 | The water domain has 1502 radial nodes, 200 steps per block, axis node 0 and peak node 2048, all in range |
| Water.StepNumberOrder | phd_coding/python/cylindrical/water_2d1_fcn_rk4.py:712 | `kk = (mm−1)·dist_limitin + nn` orders the steps lexicographically by `(mm, nn)` |
| Water.StepNumberInRange | phd_coding/python/cylindrical/water_2d1_fcn_rk4.py:712 | `kk` lies in `1..dist_limit·dist_limitin` for every block `mm` and inner step `nn` |
| Water.StepNumberOnto | phd_coding/python/cylindrical/water_2d1_fcn_rk4.py:710-712 | Every step `1..dist_limit·dist_limitin` is reached by exactly the `(mm, nn)` that division gives |
| FcnSolver.ExitAfterRecording | phd_coding/python/cylindrical/water_2d1_fcn_rk4.py:670-697 | `cheap_diagnostics` records the axis lines before checking; it continues if and only if both fields are finite, and reports the envelope first |
| FcnSolver.PeakColumns | phd_coding/python/cylindrical/water_2d1_fcn_rk4.py:680-688 | The peak columns are taken at the first maximum of the axis intensity and axis density |
| FcnSolver.WaterConfigOk | phd_coding/python/cylindrical/water_2d1_fcn_rk4.py:518-607 | The configuration `FCNSolver.__init__` derives from the water domain and `setup_operators` (`FcnSolver.ConfiguredFrom`) meets `ConfigOk`: five blocks of 200 steps covering all 1000 steps, axis node 0, peak node 2048 |
| FcnSolver.StepCommits | phd_coding/python/cylindrical/water_2d1_fcn_rk4.py:632-668 | After `solve_step` the envelope and density equal their next buffers, and only the six working buffers differ from the old state: snapshots, `k_array` and the axis and peak lines are untouched |
| FcnSolver.KArrayAfterBlocks | phd_coding/python/cylindrical/water_2d1_fcn_rk4.py:699-717 | After `m` blocks that did not exit, `k_array[q] = q · dist_limitin` for every `q ≤ m` |
| FcnSolver.ExitIsFinal | phd_coding/python/cylindrical/water_2d1_fcn_rk4.py:705-717 | Once the run exits, later blocks change nothing |
| FcnSolver.StepsExitIsFinal | phd_coding/python/cylindrical/water_2d1_fcn_rk4.py:709-717 | Within a block, once a step exits the remaining steps change nothing |
| FcnSolver.Zeros | phd_coding/python/cylindrical/water_2d1_fcn_rk4.py:625 | The zero density slot: an `n_r × n_t` matrix whose every entry is zero |
| FcnSolver.FcnSolverState.SetInitialCondition | phd_coding/python/cylindrical/water_2d1_fcn_rk4.py:610-630 | Envelope set to the initial field; snapshot slot 0 holds it with a zero density; axis row 0, peak column 0 and `k_array[0] = 0` recorded |
| FcnSolver.FcnSolverState.constructor | phd_coding/python/cylindrical/water_2d1_fcn_rk4.py:518-576 | Valid state for the configuration, with every buffer freshly allocated |
| FcnSolver.FcnSolverState.SolveStep | phd_coding/python/cylindrical/water_2d1_fcn_rk4.py:632-668 | One `solve_step`: density, dispersion, nonlinear term and Crank–Nicolson solve into the next buffers, then both copied back; records untouched (see `FcnSolver.StepCommits`) |
| FcnSolver.FcnSolverState.CheapDiagnostics | phd_coding/python/cylindrical/water_2d1_fcn_rk4.py:670-697 | Axis rows and peak columns at `step` are written, then the outcome is `Continue` or the first non-finite field (see `FcnSolver.ExitAfterRecording`) |
| FcnSolver.FcnSolverState.ExpensiveDiagnostics | phd_coding/python/cylindrical/water_2d1_fcn_rk4.py:699-703 | Slot `m` gets the fields and `k_array[m] = k_array[m−1] + dist_limitin` |
| FcnSolver.FcnSolverState.StepAndRecord | phd_coding/python/cylindrical/water_2d1_fcn_rk4.py:713-715 | One inner iteration (`solve_step` then `cheap_diagnostics`) is exactly one application of the step function |
| FcnSolver.FcnSolverState.RunBlock | phd_coding/python/cylindrical/water_2d1_fcn_rk4.py:710-717 | One pass of the inner loop and the expensive diagnostics equals the block function |
| FcnSolver.FcnSolverState.Propagate | phd_coding/python/cylindrical/water_2d1_fcn_rk4.py:705-717 | The final state and outcome are the `dist_limit`-block run of the step function |
| FfdScn.CrankNicolsonDiags | phd_coding/python/cylindrical/ffd_2d1_scn.py:66-91 | Main diagonal all ones, upper `(0, 1)` entry `−2c`, last lower entry zero |
| FfdScn.DiagsIgnorePosition | phd_coding/python/cylindrical/ffd_2d1_scn.py:66-91 | The `position` argument has no effect on the diagonals |
| FfdScn.DiagsAreStencil | phd_coding/python/cylindrical/ffd_2d1_scn.py:66-91 | The diagonals are the shared stencil with unit main diagonal and axis entry `−2c` |
| FfdScn.SetMainForgetsMain | phd_coding/python/cylindrical/ffd_2d1_scn.py:140-145 | After `setdiag` and the last-entry edit, the operator no longer depends on its previous main diagonal |
| FfdScn.MainEntries | phd_coding/python/cylindrical/ffd_2d1_scn.py:260-262 | `matrix_cnt_3[l] = 1 + i(2Δr − Δt·ω²)` and `matrix_cnt_2[l] = 1 + i(Δt·ω² − 2Δr)`; they sum to 2 |
| FfdScn.ZeroFrequencyIsWaterOperator | phd_coding/python/cylindrical/ffd_2d1_scn.py:263-264 | At `ω = 0` the per-frequency operators are the water Crank–Nicolson pair |
| FfdScn.SparseOperator.SetDiag | phd_coding/python/cylindrical/ffd_2d1_scn.py:140-141 | `setdiag(v)` replaces the whole main diagonal by `v` and keeps the off-diagonals |
| FfdScn.SparseOperator.SetLastStored | phd_coding/python/cylindrical/ffd_2d1_scn.py:143-144 | `data[-1] = v` sets entry `(n−1, n−1)` |
| FfdScn.FftAlgorithm | phd_coding/python/cylindrical/ffd_2d1_scn.py:115-123 | The Fourier buffer becomes the row-wise FFT of the envelope |
| FfdScn.IfftAlgorithm | phd_coding/python/cylindrical/ffd_2d1_scn.py:159-167 | The envelope becomes the row-wise IFFT of the Fourier buffer |
| FfdScn.FrequencyColumnsSolve | phd_coding/python/cylindrical/ffd_2d1_scn.py:126-156 | Each frequency column solves `L_l·x = R_l·f_l` with that frequency's operators |
| FfdScn.CrankNicolsonStep | phd_coding/python/cylindrical/ffd_2d1_scn.py:126-156 | The next buffer is the per-frequency solve; the operators end retuned to the last frequency |
| FfdScn.IterationRecords | phd_coding/python/cylindrical/ffd_2d1_scn.py:280-289 | An iteration records the new on-axis row at `k+1` and keeps the operators' off-diagonals |
| FfdScn.AxisHistory | phd_coding/python/cylindrical/ffd_2d1_scn.py:267-289 | After `k` steps, row `j ≤ k` of `axis_envelope` holds the on-axis envelope after step `j`, and later rows are untouched |
| FfdScn.SameOperatorsEveryStep | phd_coding/python/cylindrical/ffd_2d1_scn.py:280-289 | Every step solves with the same per-frequency operators |
| FfdScn.ScnSolver.Iterate | phd_coding/python/cylindrical/ffd_2d1_scn.py:280-289 | One iteration changes the state as the iteration function says and swaps the two envelope buffers |
| FfdScn.ScnSolver.constructor | phd_coding/python/cylindrical/ffd_2d1_scn.py:252-277 | Initial envelope and its axis row stored; operators built by `crank_nicolson_array` |
| FfdScn.ScnSolver.Propagate | phd_coding/python/cylindrical/ffd_2d1_scn.py:280-289 | The final state is the `N_STEPS`-fold run |
| ScnOld.DiagsLayout | phd_coding/python/outdated/ffdmk_2d1_scn_old.py:74-99 | Unit main diagonal, stencil off-diagonals, `(0, 1) = −2c`, and `"LEFT"`/`"RIGHT"` give the same diagonals |
| ScnOld.RecordedInBounds | phd_coding/python/outdated/ffdmk_2d1_scn_old.py:362-368 | The recorded steps are strictly increasing, all before `k`, and never more than `DIST_LIMIT + 1` |
| ScnOld.StoreDecision | phd_coding/python/outdated/ffdmk_2d1_scn_old.py:362-368 | Step `c·q + m − 1` of a block stores if and only if it is the block's first step (`m = 1`) and a slot is left |
| ScnOld.RecordedWithinBlocks | phd_coding/python/outdated/ffdmk_2d1_scn_old.py:362-368 | Within the run, the recorded steps are exactly the multiples of `N_STEPS // DIST_LIMIT` so far |
| ScnOld.ScheduleOfRun | phd_coding/python/outdated/ffdmk_2d1_scn_old.py:362-368 | A full run records `0, q, …, (DIST_LIMIT−1)·q` and then `N_STEPS − 1`, filling all `DIST_LIMIT + 1` slots |
| ScnOld.AbTermIsKerrAndMpa | phd_coding/python/outdated/ffdmk_2d1_scn_old.py:123-150 | `w = (KERR·|E|² + MPA·|E|^(2N−2))·E`, the Kerr and multiphoton response |
| ScnOld.KerrMpaFactor | phd_coding/python/outdated/ffdmk_2d1_scn_old.py:123-135 | The nonlinear term with the `|E|²` and `|E|^(2N−2)` channels is the Kerr plus multiphoton response |
| ScnOld.ZeroTermsAreLinearStep | phd_coding/python/outdated/ffdmk_2d1_scn_old.py:171-191 | With zero nonlinear terms, the Adams–Bashforth step is the plain spectral Crank–Nicolson step |
| ScnOld.ZeroTermsCombination | phd_coding/python/outdated/ffdmk_2d1_scn_old.py:186-189 | With both nonlinear terms zero the Adams–Bashforth right-hand side is just the Crank–Nicolson product |
| ScnOld.AbColumnSolves | phd_coding/python/outdated/ffdmk_2d1_scn_old.py:186-191 | Each frequency column solves `L_l·x = R_l·f_l + 1.5·w_c − 0.5·w_n` |
| ScnOld.IterationRecords | phd_coding/python/outdated/ffdmk_2d1_scn_old.py:344-373 | The new envelope, buffer swap, axis/peak lines, store decision and operators after one iteration |
| ScnOld.IterationLines | phd_coding/python/outdated/ffdmk_2d1_scn_old.py:347-349 | At `k = 0` axis row 1 gets the pre-step on-axis row and the peak is untouched; later, row `k+1` and peak column `k+1` get the new envelope |
| ScnOld.IterationStores | phd_coding/python/outdated/ffdmk_2d1_scn_old.py:362-368 | A storing step writes the new envelope and `k` into slot `DIST_INDEX` and advances it; otherwise nothing in the store changes |
| ScnOld.PreviousTermUnused | phd_coding/python/outdated/ffdmk_2d1_scn_old.py:344-359 | An iteration does not depend on the old `w`, `b`, Fourier, `f` or next-envelope contents |
| ScnOld.TermNeverWritten | phd_coding/python/outdated/ffdmk_2d1_scn_old.py:333-340 | The `w_n` buffer the step reads is never written during the run |
| ScnOld.ScheduleHistory | phd_coding/python/outdated/ffdmk_2d1_scn_old.py:361-368 | After `k` steps, slot `i` holds the envelope after the `i`-th recorded step and its index, `DIST_INDEX` counts them, and unused slots are untouched |
| ScnOld.AxisHistory | phd_coding/python/outdated/ffdmk_2d1_scn_old.py:347-373 | Row 1 of `axis_envelope` holds the pre-step envelope; rows `2..k` hold the envelope after each step |
| ScnOld.PeakHistory | phd_coding/python/outdated/ffdmk_2d1_scn_old.py:371-373 | Columns `2..k` of `peak_envelope` hold the peak-node column after each step; columns 0 and 1 are never written |
| ScnOld.FftAlgorithm | phd_coding/python/outdated/ffdmk_2d1_scn_old.py:153-168 | The envelope and `w_c` are transformed; when `w_n` is `w_c` itself, `w_c` is transformed twice |
| ScnOld.CrankNicolsonStep | phd_coding/python/outdated/ffdmk_2d1_scn_old.py:171-191 | The next Fourier envelope is the per-frequency Adams–Bashforth solve |
| ScnOld.ScnOldSolver.constructor | phd_coding/python/outdated/ffdmk_2d1_scn_old.py:305-340 | Operators built, initial envelope and its axis row stored, `DIST_INDEX = 0`, `w_n` is the `next_w_array` buffer |
| ScnOld.ScnOldSolver.NonlinearTerms | phd_coding/python/outdated/ffdmk_2d1_scn_old.py:345-346 | `current_w` becomes the Kerr and multiphoton term of the envelope |
| ScnOld.ScnOldSolver.FirstAxis | phd_coding/python/outdated/ffdmk_2d1_scn_old.py:347-349 | At `k == 0` axis row 1 receives the current on-axis row |
| ScnOld.ScnOldSolver.Transform | phd_coding/python/outdated/ffdmk_2d1_scn_old.py:351-353 | The FFT stage, transforming `w_c` twice when `w_n` is the same buffer |
| ScnOld.ScnOldSolver.Solve | phd_coding/python/outdated/ffdmk_2d1_scn_old.py:354 | The next Fourier envelope is the Adams–Bashforth solve |
| ScnOld.ScnOldSolver.BackAndSwap | phd_coding/python/outdated/ffdmk_2d1_scn_old.py:355-359 | IFFT, then the envelope buffers swap and `next_w` rebinds to `current_w` |
| ScnOld.ScnOldSolver.Store | phd_coding/python/outdated/ffdmk_2d1_scn_old.py:362-368 | The store stage of the schedule; buffers keep their identity |
| ScnOld.ScnOldSolver.Lines | phd_coding/python/outdated/ffdmk_2d1_scn_old.py:371-373 | The axis and peak lines of steps `k > 0` |
| ScnOld.ScnOldSolver.Iterate | phd_coding/python/outdated/ffdmk_2d1_scn_old.py:344-373 | One loop body equals the iteration function and leaves `next_w` aliasing `current_w` |
| ScnOld.ScnOldSolver.Step | phd_coding/python/outdated/ffdmk_2d1_scn_old.py:344-373 | One loop iteration advances the state by one step of the run |
| ScnOld.ScnOldSolver.Propagate | phd_coding/python/outdated/ffdmk_2d1_scn_old.py:344-373 | The final state is the `N_STEPS`-fold run |
| Adi.PlanarDiagonalsConstant | phd_coding/python/practitioners_guide/ffdmk_2d1_adi2.py:65-86 | Planar diagonals are constant, with a zero first upper and last lower slot |
| Adi.CylindricalDiagonalsAreStencil | phd_coding/python/practitioners_guide/ffdmk_2d1_adi2.py:65-86 | Cylindrical diagonals are the shared stencil with a zero axis entry |
| Adi.DiagonalsT | phd_coding/python/practitioners_guide/ffdmk_2d1_adi2.py:89-105 | Constant off-diagonals and main diagonal of the given size |
| Adi.PlanarBoundaryRows | phd_coding/python/practitioners_guide/ffdmk_2d1_adi2.py:235-238 | With `EU_CYL == 0`, both radial boundary rows are identity on the left and zero on the right |
| Adi.EdgeRows | phd_coding/python/practitioners_guide/ffdmk_2d1_adi2.py:235-249 | Editing the boundary entries sets `(0,0)`, `(0,1)` and the last diagonal entry and keeps every other entry |
| Adi.CylindricalBoundaryRows | phd_coding/python/practitioners_guide/ffdmk_2d1_adi2.py:239-245 | In cylindrical coordinates the axis row is `[1 ± 2M_R, ∓2M_R]`, the outer row identity/zero; for `EU_CYL == 1` these are the water operators |
| Adi.TemporalBoundaryRows | phd_coding/python/practitioners_guide/ffdmk_2d1_adi2.py:247-249 | The temporal operators have identity/zero first rows and the given last rows, with the three-point stencil between |
| Adi.NonlinearTermOdd | phd_coding/python/practitioners_guide/ffdmk_2d1_adi2.py:288-321 | The nonlinear term maps 0 to 0 and is odd in the envelope |
| Adi.RowSolvesSolve | phd_coding/python/practitioners_guide/ffdmk_2d1_adi2.py:361 | Each row of the second half-step solves `L_T·x = f_i` |
| Adi.ColumnSolvesSolve | phd_coding/python/practitioners_guide/ffdmk_2d1_adi2.py:321 | Each column of the first half-step solves `L_R·x = f_l` |
| Adi.AliasingIsHarmless | phd_coding/python/practitioners_guide/ffdmk_2d1_adi2.py:332-365 | Writing `envelope_store` while it aliases `envelope` gives the same step as when they are distinct |
| Adi.HistoryAfterStep | phd_coding/python/practitioners_guide/ffdmk_2d1_adi2.py:324-364 | After a step both history slots hold the nonlinear term of the initial envelope (at `k == 0`) or of the half-step field |
| Adi.BlendEqualSlots | phd_coding/python/practitioners_guide/ffdmk_2d1_adi2.py:318 | With equal history slots the blend is `b + w/2` |
| Adi.HalfStepCombinations | phd_coding/python/practitioners_guide/ffdmk_2d1_adi2.py:288-361 | The `f` arrays of both half-steps, including the `k == 0` starting guesses |
| Adi.AxisHistory | phd_coding/python/practitioners_guide/ffdmk_2d1_adi2.py:278-368 | After `k` steps, row `j` of `envelope_axis` holds the on-axis envelope after step `j`; row 0 is the initial one |
| Adi.AdiSolver.FirstHalf | phd_coding/python/practitioners_guide/ffdmk_2d1_adi2.py:288-321 | The column loop computes the first half-step solve |
| Adi.AdiSolver.constructor | phd_coding/python/practitioners_guide/ffdmk_2d1_adi2.py:202-278 | Valid state with the initial envelope and its axis row; `envelope` and `envelope_store` start as distinct buffers |
| Adi.AdiSolver.TimeRhs | phd_coding/python/practitioners_guide/ffdmk_2d1_adi2.py:284-285 | `b` becomes the temporal right-hand operator applied row by row |
| Adi.AdiSolver.ShiftSlots | phd_coding/python/practitioners_guide/ffdmk_2d1_adi2.py:324 | The history slots shift: slot 0 takes slot 1 |
| Adi.AdiSolver.SecondHalf | phd_coding/python/practitioners_guide/ffdmk_2d1_adi2.py:332-361 | The row loop computes the second half-step, aliased or not |
| Adi.AdiSolver.RadialRhs | phd_coding/python/practitioners_guide/ffdmk_2d1_adi2.py:328-329 | `b` becomes the radial right-hand operator applied column by column |
| Adi.AdiSolver.Finish | phd_coding/python/practitioners_guide/ffdmk_2d1_adi2.py:364-368 | Slot shift, `envelope = envelope_store` aliasing and the axis row |
| Adi.AdiSolver.Step | phd_coding/python/practitioners_guide/ffdmk_2d1_adi2.py:281-368 | One iteration advances the state by one step of the run, and the envelope then aliases the store |
| Adi.AdiSolver.Propagate | phd_coding/python/practitioners_guide/ffdmk_2d1_adi2.py:281-368 | The final state is the `N_STEPS`-fold run |
| Diagnostics.AnyFailing | codes/python/aiurpy/results/routines.py:35 | `np.any(~ok(m))` holds exactly when some entry fails |
| Diagnostics.ValidateStep | codes/python/aiurpy/results/routines.py:17-52 | Passes if and only if both fields are finite; the envelope is checked first; failures exit if and only if `exit_on_error` |
| Diagnostics.ReturnsFinite | codes/python/aiurpy/results/routines.py:17-52 | With `exit_on_error=False` it never exits, and returns `True` exactly when every entry is finite |
| Diagnostics.InvalidStepRecordsNothing | codes/python/aiurpy/results/routines.py:55-85 | A non-finite step exits before any record is written |
| Diagnostics.ValidStepRecords | codes/python/aiurpy/results/routines.py:55-85 | A finite step writes the axis rows, the peak columns at the first argmax, fluence and radius at `step`; the fields, the snapshots, their index, `fluence_r` and `radius` are unchanged |
| Diagnostics.FirstSlotReadsLast | codes/python/aiurpy/results/routines.py:156 | At `step == 0`, `snapshot_z_index[step − 1]` reads the last slot |
| Diagnostics.IndexRecurrence | codes/python/aiurpy/results/routines.py:152-156 | Calling the expensive diagnostics for `1..k` makes `snapshot_z_index[j] = index[0] + j · z_steps_per_snapshot` |
| Diagnostics.CopyWindow | codes/python/aiurpy/results/routines.py:133-135 | The window `[last_step+1, step+1)` is copied and every other column is kept |
| Diagnostics.LastMonitored | codes/python/aiurpy/results/routines.py:129 | The last monitored step up to `k` is a multiple of `INT_MONITOR` or `z_steps`, and no later step up to `k` is one |
| Diagnostics.MonitorWindow | codes/python/aiurpy/results/routines.py:88-137 | After steps `1..k`, the file's columns `1..last_step` hold the step-`k` peak data and every other column holds its zero fill |
| Diagnostics.DiagnosticBuffers.CheapDiagnostics | codes/python/aiurpy/results/routines.py:55-85 | Validates first; a passing step writes the axis, peak, fluence and radius records at `step` (see `Diagnostics.ValidStepRecords`) |
| Diagnostics.DiagnosticBuffers.RecordEnvelope | codes/python/aiurpy/results/routines.py:77-82 | Axis row and peak column of the envelope at `step`, at its first argmax; nothing else changes |
| Diagnostics.DiagnosticBuffers.RecordDensity | codes/python/aiurpy/results/routines.py:78-84 | Axis row and peak column of the density at `step` |
| Diagnostics.DiagnosticBuffers.RecordFluence | codes/python/aiurpy/results/routines.py:85 | Fluence and radius rows at `step` |
| Diagnostics.DiagnosticBuffers.ExpensiveDiagnostics | codes/python/aiurpy/results/routines.py:140-156 | Snapshot slot `step` gets the envelope and density, and `snapshot_z_index[step] = snapshot_z_index[step−1] + z_steps_per_snapshot` |
| Diagnostics.MonitorFile.InterDiagnostics | codes/python/aiurpy/results/routines.py:88-137 | At `step == 1` the dataset is reset to zeros with `last_step = 0`; a monitored step beyond `last_step` copies columns `last_step+1..step` and sets `last_step = step`; otherwise nothing changes |

## Behaviour that follows the code

The model does what the code does in the places listed below, even where the result looks
unintended. Each point is stated by the members named.

- **`ffdmk_2d1_scn_old`.**
  - The `vectors` dictionary captures `next_w_array` before the loop, and the loop only
    rebinds that name. The buffer the Adams–Bashforth combination reads as the previous
    nonlinear term is therefore never written (`ScnOld.TermNeverWritten`). Its contents are
    whatever `np.empty` returned.
  - From `k = 1` on, `next_w_array` is `current_w_array`, so `fft_algorithm` transforms that
    buffer twice (`ScnOld.FftAlgorithm`).
  - At `k = 0` row 1 of `axis_envelope` receives the envelope before the step, not after it.
  - Columns 0 and 1 of `peak_envelope` are never written (`ScnOld.AxisHistory`,
    `ScnOld.PeakHistory`).
- **Monitoring file.** Column 0 of the dataset in `inter_diagnostics` is never copied and
  keeps its fill value (`Diagnostics.MonitorWindow`).
- **Water solver.** `FCNSolver.cheap_diagnostics` writes the axis and peak records before it
  checks for non-finite values, so a failing step is still recorded
  (`FcnSolver.ExitAfterRecording`). The routines version validates first
  (`Diagnostics.InvalidStepRecordsNothing`).
- **Water density sweep.** `solve_density` computes column `ll+1` of the next density from
  column `ll` of `n_c`, the density of the previous propagation step, and not from the column
  it has just written in `n_n` (`Water.DensitySweep`, `Water.DensityColumns`). With no field
  the sweep therefore shifts the previous density one time node (`Water.DarkSweepShiftsDensity`).
- **Snapshot index.** `expensive_diagnostics(0)` reads `snapshot_z_index[-1]`, the last slot
  (`Diagnostics.FirstSlotReadsLast`).
- **FSS.**
  - `compute_matrix` applies no boundary edits for a side other than `"left"` or `"right"`
    (`Fss.OtherSideRows`).
  - The tuple "swap" at the end of `solve_step` leaves both envelope buffers equal
    (`Fss.CommitLeavesBuffersEqual`).
- **Grid check.** No `InvalidGridError` is raised for fewer than three radial nodes; the code
  has no such check. The model only requires two radial nodes, which the numpy calls need.
- **Ionization threshold.** The PPT branch compares the field modulus with `1e-12` and passes
  `γ` as the series' index argument, as written.

## Left out

- Plotting, `tqdm` progress bars, console output, `np.savez`, the HDF5 group and metadata layout, and
  profiler logging: output only, no effect on the fields.
- Floating point, NaN and infinity are not modelled. Reals are exact. `np.isfinite` is an
  abstract predicate in `Library`.
- The FFT, `spsolve`, `solve_banded`, `quad`, exp, sqrt and asinh are function parameters.
  The lemmas that need them rely only on the facts stated in `Numerics.Facts`, `Solves` and
  `InverseTransforms`. The oddness lemmas `Water.FieldOperatorOdd`, `Water.FieldStepOdd` and
  `Adi.NonlinearTermOdd` also use `AbsSq(−x) = AbsSq(x)`. That is a fact of the exact
  modulus, not an assumption about `np.abs`.
- The routines `SolverFss.solve_step` calls from other files are parameters (`Fss.Callees`):
  intensity, density, Raman, nonlinear, fluence and radius. So are the initial-condition
  functions (`initial_condition`, `gaussian_beam`) and the grid and physical-constant set-up of
  the scripts.
- `prange` loops are modelled as sequential loops. Their iterations write disjoint columns, so
  the order does not matter.
- `np.empty` buffers start with arbitrary contents. Scratch buffers that are fully rewritten
  before they are read are not state: the `c_array` and `d_array` of `ffdmk_2d1_scn_old`,
  `temp_array`, `n_temp`, `e_temp`. The `c_array` of `ffd_2d1_scn` and of `ffdmk_2d1_adi2` is
  state (`FfdScn.ScnState.c`, `Adi.AdiState.c`).
- `sys.exit(1)` is an `Exited` or non-`Continue` outcome, after which the model stops.
- The `Propagate` methods are specified against any step function that `Models` the concrete
  step, rather than by unfolding it. A ghost `Stepper` shows that such a function exists.
- Tridiagonal operators are stored by their three diagonals. The CSR layout of
  `ffd_2d1_scn`/`ffdmk_2d1_scn_old` is not modelled beyond its last stored element being entry
  `(n−1, n−1)`.
- ScnOld.ScnOldSolver.constructor: requires `N_PHOTONS ≥ 1` and `1 ≤ DIST_LIMIT ≤ N_STEPS`,
  which the script's constants satisfy.
- Diagnostics.MonitorFile.InterDiagnostics: requires `step ≤ z_steps`, which the solver's loop
  guarantees.
- Raman.ComputeRaman: states the result through the RK4 sweep. How close that sweep is to the
  exact solution of the oscillator equation is not proved.
- Ionization.ComputeIonization: under `"ppt"` requires `coef_ga > 0`, which the code does not
  check. The Keldysh coefficient is a positive physical constant. For `coef_ga = 0` the code's
  `γ` is zero and its result is inf or nan, which the model does not represent. The facts about
  `γ` (`Ionization.GammaTerms`) need `γ > 0`.
- Ionization.IonizationSpec: under `"ppt"` requires `coef_ga > 0`, for the same reason.
- Ionization.StorePptSums: requires `coef_ga > 0`, for the same reason.
- Ionization.StorePptRow: requires `coef_ga > 0`, for the same reason.
- Ionization.ComputeIonization: `quad` (the Dawson-type integral) is a parameter, so the series
  terms are exact only relative to it.
