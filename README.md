# Lehe Faraday solver and AM field interpolator, modelled in Dafny

This project models two kernels of a particle-in-cell plasma code, over exact
`real` arithmetic.

**The 3D Maxwell-Faraday update with the Lehe stencil** (`MF_Solver3D_Lehe`),
in `faraday_lehe.dfy`.
- The constructor derives the stencil coefficients alpha, beta and delta from the
  cell lengths.
- `operator()` advances Bx, By and Bz in place on a staggered lattice. The dual
  extent along each axis is one more than the primal extent.
- It runs nine loop nests:
  - three interior passes with the weighted, dispersion-tailored curl of E;
  - six passes on the planes next to the x edges, which use the plain
    two-point curl.
- Each loop nest is the method `ApplyPass`, built from `ApplyPlane` and
  `ApplyLine`. Its postcondition says that every B point receives its old value
  plus `Contribution`: the formula of that pass inside its loop range, and zero
  outside it.
- The class `Solver3DLehe` holds the coefficients. Its `Apply` runs the nine
  passes in source order.
- The curl formulas carry the index domains on which they are well defined.
  Their well-formedness is the proof that every E read is in range.

**The second-order interpolator in azimuthal-mode geometry**
(`InterpolatorAM2Order`), in `interpolator_am.dfy`, with complex arithmetic in
`complex_numbers.dfy`. For one particle it:
- forms the phase factor e^{-iθ} = (y - iz)/r;
- sums the azimuthal modes of each field component, Re(mode 0) plus
  Re(F_m · e^{-imθ}) for m = 1 .. nmodes-1, keeping a running power of the phase
  factor;
- rotates each (radial, azimuthal) pair into Cartesian (y, z) components through
  the temporary `delta2`.

The class models:
- `fields`: E and B into the per-thread particle buffers;
- `fieldsAndCurrents`: E, B, plus J and rho at one particle;
- `fieldsWrapper`: the loop over a range of particles that also buffers each
  particle's cell indices, offsets and phase factor;
- the two entry points `oneField` and `fieldsSelection`, which only report an
  error.

The specifications are the pure functions `ModeSum`, `Rotate`, `Oriented`,
`Sample` and `Expected`. Lemmas about them state:
- the phase factor lies on the unit circle;
- the rotation preserves the transverse magnitude, and the conjugate phase undoes it;
- the rotation is the projection onto the y and z axes;
- an axisymmetric field does not depend on the angle;
- no mode is amplified.

## Model

| member | source | states |
|---|---|---|
| FaradayLehe.LeheCoefficients | src/ElectroMagnSolver/MF_Solver3D_Lehe.cpp:16-22 | beta_yx = 1/8; 8·beta_xy·dy² = dx² and 8·beta_xz·dz² = dx²; alpha_y + 2·beta_yx = 1; alpha_x + 2·beta_xy + 2·beta_xz + 3·delta_x = 1; the Courant ratios satisfy (dt/dx)·dx = dt |
| FaradayLehe.YeeCoefficients | src/ElectroMagnSolver/MF_Solver3D_Lehe.cpp:24-30 | the commented Yee reset (alpha = 1, beta = delta = 0) satisfies the same two consistency identities as the Lehe coefficients |
| FaradayLehe.BxLehe | src/ElectroMagnSolver/MF_Solver3D_Lehe.cpp:53-58 | the interior Bx increment as written (alpha_y / beta_yx weighted y and z differences), defined exactly where its reads are in range; with Yee coefficients it is the two-point curl |
| FaradayLehe.ByLehe | src/ElectroMagnSolver/MF_Solver3D_Lehe.cpp:67-73 | the interior By increment as written (alpha_x, beta_xy, beta_xz and the delta_x term reaching i-2 and i+1), defined exactly where its reads are in range; with Yee coefficients it is the two-point curl |
| FaradayLehe.BzLehe | src/ElectroMagnSolver/MF_Solver3D_Lehe.cpp:83-88 | the interior Bz increment as written, defined exactly where its reads are in range; with Yee coefficients it is the two-point curl |
| FaradayLehe.BxYee | src/ElectroMagnSolver/MF_Solver3D_Lehe.cpp:99-105 | the two-point Bx curl of the x-min and x-max passes as written |
| FaradayLehe.ByYee | src/ElectroMagnSolver/MF_Solver3D_Lehe.cpp:112-120 | the two-point By curl of the x-min and x-max passes as written |
| FaradayLehe.BzYee | src/ElectroMagnSolver/MF_Solver3D_Lehe.cpp:127-135 | the two-point Bz curl of the x-min and x-max passes as written |
| FaradayLehe.PassBox | src/ElectroMagnSolver/MF_Solver3D_Lehe.cpp:50-133 | the loop bounds of the nine loop nests as written |
| FaradayLehe.YeeResetGivesPlainCurl | src/ElectroMagnSolver/MF_Solver3D_Lehe.cpp:24-30 | with the coefficients of the commented Yee reset, every pass adds exactly the two-point curl |
| FaradayLehe.YeeCoefficientsGivePlainCurl | src/ElectroMagnSolver/MF_Solver3D_Lehe.cpp:53-88 | with Yee coefficients, every pass (interior ones included) adds exactly the two-point curl of its component, and that curl is in range at every point of the pass |
| FaradayLehe.PassWritesInsideTarget | src/ElectroMagnSolver/MF_Solver3D_Lehe.cpp:50-137 | every point in any pass's loop range lies inside the B array the pass writes |
| FaradayLehe.AtMostOneIncrement | src/ElectroMagnSolver/MF_Solver3D_Lehe.cpp:50-137 | with nx_p ≥ 3, two different passes writing the same component have disjoint loop ranges, so a B point is incremented at most once per call |
| FaradayLehe.EdgePlanesCoincideWhenTwoCellsWide | src/ElectroMagnSolver/MF_Solver3D_Lehe.cpp:110-137 | with nx_p = 2, the x-min and x-max planes of By and of Bz are both the plane i = 1, so that plane is incremented twice |
| FaradayLehe.PointsOutsideTheLoopsAreNotUpdated | src/ElectroMagnSolver/MF_Solver3D_Lehe.cpp:50-137 | By and Bz at i = 0 and i = nx_d-1, Bx at j or k on the outer dual index, By at the outer k and Bz at the outer j all receive a zero update |
| FaradayLehe.UniformElectricFieldLeavesBUnchanged | src/ElectroMagnSolver/MF_Solver3D_Lehe.cpp:53-88 | if Ex, Ey and Ez are each spatially constant (zero included), the total update of every B point is zero |
| FaradayLehe.ApplyLine | src/ElectroMagnSolver/MF_Solver3D_Lehe.cpp:52-58 | the innermost k loop adds the pass's increment along line (i, j) and changes no other point |
| FaradayLehe.ApplyPlane | src/ElectroMagnSolver/MF_Solver3D_Lehe.cpp:51-60 | the j loop adds the pass's increment on plane i and changes no other point |
| FaradayLehe.ApplyPass | src/ElectroMagnSolver/MF_Solver3D_Lehe.cpp:50-61 | one loop nest: every B point ends as old value + Contribution (the pass's formula inside its loop range, 0 outside) |
| FaradayLehe.Solver3DLehe.constructor | src/ElectroMagnSolver/MF_Solver3D_Lehe.cpp:9-32 | the solver keeps the extents and the Lehe coefficients for its cell lengths |
| FaradayLehe.Solver3DLehe.InteriorPasses | src/ElectroMagnSolver/MF_Solver3D_Lehe.cpp:49-91 | the three interior loop nests add their alpha/beta/delta stencils to Bx, By and Bz respectively |
| FaradayLehe.Solver3DLehe.EdgePasses | src/ElectroMagnSolver/MF_Solver3D_Lehe.cpp:95-137 | the x-min then x-max edge passes of one component add both two-point contributions |
| FaradayLehe.Solver3DLehe.Apply | src/ElectroMagnSolver/MF_Solver3D_Lehe.cpp:38-140 | each B point becomes old value + Update (the sum of its component's interior and two edge contributions); Ex, Ey and Ez are unchanged |
| ComplexNumbers.UnitPow | src/Interpolator/InterpolatorAM2Order.cpp:68-76 | every power of a unit-modulus factor has modulus 1 (the running exp_mm_theta stays on the unit circle) |
| InterpolatorAM.ModeSeries | src/Interpolator/InterpolatorAM2Order.cpp:68-83 | Σ_{m=1}^{n-1} Re(compute(mode m) · e^m), the higher-mode terms as written |
| InterpolatorAM.ModeSum | src/Interpolator/InterpolatorAM2Order.cpp:56-83 | Re(mode 0) plus the higher-mode series: a component before rotation, as written |
| InterpolatorAM.Rotate | src/Interpolator/InterpolatorAM2Order.cpp:114-119 | (c·radial + s·azimuthal, -s·radial + c·azimuthal), which is (radial + i·azimuthal) times the conjugate phase factor |
| InterpolatorAM.InterpolatorAM2Order.Sample | src/Interpolator/InterpolatorAM2Order.cpp:46-119 | one sampled vector: the mode sums of its three components at the particle, the transverse pair rotated by its phase factor |
| InterpolatorAM.InterpolatorAM2Order.Expected | src/Interpolator/InterpolatorAM2Order.cpp:236-242 | what one iteration of the wrapper leaves for a particle: its E and B samples, (ip_, jp_), (deltax, deltar) and exp_m_theta |
| InterpolatorAM.PhaseFactor | src/Interpolator/InterpolatorAM2Order.cpp:49 | the phase factor times r is y - iz |
| InterpolatorAM.PhaseOnUnitCircle | src/Interpolator/InterpolatorAM2Order.cpp:47-49 | when r > 0 is the true radius, c² + s² = 1 for the phase factor c + is |
| InterpolatorAM.SumModes | src/Interpolator/InterpolatorAM2Order.cpp:50-84 | each output is Re(mode 0) + Σ_{m=1}^{nmodes-1} Re(value_m · e^m), with the accumulator equal to e^{m-1} before step m (loop invariant) |
| InterpolatorAM.AxisymmetricFieldIgnoresAngle | src/Interpolator/InterpolatorAM2Order.cpp:56-84 | if every mode above 0 is zero (always so when nmodes = 1), the sum is Re(mode 0) whatever the phase |
| InterpolatorAM.ModeTermBounded | src/Interpolator/InterpolatorAM2Order.cpp:76-83 | with a unit phase factor, each mode's contribution squared is at most that mode's squared modulus |
| InterpolatorAM.RotationIsCartesianProjection | src/Interpolator/InterpolatorAM2Order.cpp:113-119 | with the particle's phase factor, the rotated pair is ((y·Er - z·Et)/r, (z·Er + y·Et)/r) |
| InterpolatorAM.RotationPreservesMagnitude | src/Interpolator/InterpolatorAM2Order.cpp:114-119 | with c² + s² = 1, the rotation preserves Er² + Et² |
| InterpolatorAM.RotationUndoneByConjugate | src/Interpolator/InterpolatorAM2Order.cpp:114-119 | rotating by the conjugate phase recovers the (radial, azimuthal) pair |
| InterpolatorAM.StoreRotated | src/Interpolator/InterpolatorAM2Order.cpp:114-116 | the slots off, off+n, off+2n end as (longitudinal, rotated pair) computed simultaneously through delta2; no other slot changes |
| InterpolatorAM.StoreFields | src/Interpolator/InterpolatorAM2Order.cpp:114-119 | E then B of one particle stored and rotated in their buffers; every other particle's slots are unchanged |
| InterpolatorAM.RotateCurrent | src/Interpolator/InterpolatorAM2Order.cpp:212-214 | J's (Jr, Jt) pair rotated through delta2 equals the rotation of the pair; Jl is untouched |
| InterpolatorAM.InterpolatorAM2Order.constructor | src/Interpolator/InterpolatorAM2Order.cpp:19-26 | dl_inv·dl = 1, dr_inv·dr = 1, nmodes and dr as given |
| InterpolatorAM.InterpolatorAM2Order.SampleKeepsTransverseMagnitude | src/Interpolator/InterpolatorAM2Order.cpp:47-119 | off the axis, the sampled (y, z) pair has the magnitude of the (radial, azimuthal) mode sums |
| InterpolatorAM.InterpolatorAM2Order.Fields | src/Interpolator/InterpolatorAM2Order.cpp:31-127 | the phase factor and coefficient cache become the particle's; its E and B buffer slots hold the rotated mode sums; every other particle's slots are unchanged |
| InterpolatorAM.InterpolatorAM2Order.FieldsAndCurrents | src/Interpolator/InterpolatorAM2Order.cpp:129-216 | for the single particle *istart: E and B by the same mode sum and rotation as fields(), evaluated with compute_p/compute_d (its own `Stencil` argument); J has the same rotation applied to (Jr, Jt) with Jl unrotated; rho is the unrotated mode sum; no other particle's slots change |
| InterpolatorAM.InterpolatorAM2Order.OneField | src/Interpolator/InterpolatorAM2Order.cpp:219-222 | always fails with "Single field AM2O interpolator not available" |
| InterpolatorAM.InterpolatorAM2Order.FieldsSelection | src/Interpolator/InterpolatorAM2Order.cpp:248-251 | always fails with "To Do" |
| InterpolatorAM.InterpolatorAM2Order.FieldsBuffered | src/Interpolator/InterpolatorAM2Order.cpp:236-243 | one iteration: the particle's E, B, (ip_, jp_), (deltax, deltar) and phase factor land in its slots ipart and ipart + nparts; every other particle's slots are unchanged |
| InterpolatorAM.InterpolatorAM2Order.FieldsWrapper | src/Interpolator/InterpolatorAM2Order.cpp:224-244 | every particle in [*istart, *iend) holds its expected buffered values; every particle outside keeps its old slots; the cache is the last particle's |

## Left out

- Floating point: all arithmetic is exact `real`, with no IEEE rounding.
- `sqrt`, `sin` and `M_PI` are not modelled:
  - r is given with the particle, and `OffAxis` relates it to y and z;
  - delta_x, which is computed from `sin(M_PI·dt/dx/2)`, is a constructor
    parameter;
  - dt/dx, dt/dy and dt/dz come from the base class `Solver3D`, which is not part
    of this model, and are recomputed from the cell lengths.
- InterpolatorAM.PhaseFactor and the interpolator methods require r > 0. At
  r = 0 the source divides by zero.
- InterpolatorAM.InterpolatorAM2Order.Fields (and the methods built on it)
  require the thread buffers to hold exactly 3·nparts (E, B), 2·nparts
  (iold, delta) and nparts (exp_m_theta_old) entries. This is how the
  per-thread buffers are sized for a bin of particles. The source itself only
  needs at least that many.
- The shape-function machinery (`coeffs`, `compute`, `compute_p`, `compute_d`)
  is defined outside the modelled files. It enters as two uninterpreted
  function parameters, `Coeffs` and `Stencil`.
  - `compute_p` and `compute_d` are folded into the one `Stencil`, keyed by
    quantity and mode.
  - The stencil's choice of primal or dual indices is inside that function.
- fields() samples with `compute`, while fieldsAndCurrents() samples with
  `compute_p`/`compute_d`. Both are defined outside the modelled files, so
  the model does not claim they agree: each method takes its evaluator as its
  own `Stencil` argument.
- The mode loop accumulates into a local sequence that is stored into the
  buffer before the rotation. The source accumulates directly in the buffer
  slots, and the final buffer contents are the same.
- The commented-out near-axis division by r in `fields()` and the debugging
  output are not live code and are not modelled.
- The commented Yee reset in the constructor is modelled only as
  `YeeCoefficients`, the degenerate case.
- Halo exchange later overwrites the edge-pass values on patches that are not
  on the global border. That happens outside `operator()` and is not modelled.
- Threads: the `ithread` selection of `smpi` buffers is not modelled. Each call
  receives its buffers directly.
- The unused `ipart_ref` parameter is not modelled.
- FaradayLehe.Extents.Valid requires nx_p ≥ 2, ny_p ≥ 1 and nz_p ≥ 1. The
  indices are unsigned. ny_p ≥ 1 and nz_p ≥ 1 keep the loop bounds ny_p-1,
  ny_d-2 and nz_d-2 from wrapping around. nx_p ≥ 2 keeps the edge-pass reads
  in range: Ez and Ey at x index 1, and at x index nx_d-3, which would wrap.
  The at-most-once property additionally needs nx_p ≥ 3, as
  `EdgePlanesCoincideWhenTwoCellsWide` shows.
- InterpolatorAM.InterpolatorAM2Order.OneField and
  InterpolatorAM.InterpolatorAM2Order.FieldsSelection report the failure as a
  returned `Fail` value. In the program, ERROR ends the run; that abort is not
  modelled, so a caller of the model can carry on.
- InterpolatorAM.InterpolatorAM2Order.FieldsAndCurrents ignores `*iend` and
  handles only particle `*istart`, as the source does.
- Particle merging, the species factory and the profile readers are
  configuration and communication code. They are not part of this model.
