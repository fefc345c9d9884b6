/** Second-order interpolation of the fields at a particle in the azimuthal
    mode (AM) geometry (class InterpolatorAM2Order).

    A field is stored as complex 2D grids, one per azimuthal mode m; its value
    at angle theta is Re(sum_m F_m e^{-i m theta}), mode 0 being real. For one
    particle the interpolator forms e^{-i theta} = (y - i z) / r, sums the
    modes with a running power of that phase factor, and finally turns the
    (radial, azimuthal) pair of E, B and J into (y, z) components.

    The shape-function machinery (coeffs, compute, compute_p, compute_d) lives
    outside this class and is not part of this model: it enters as two
    function parameters, `Coeffs` (normalized position to coefficient cache)
    and `Stencil` (cache, quantity and mode to the complex stencil sum). */
module InterpolatorAM {
  import opened ComplexNumbers

  /** The quantities sampled at a particle. */
  datatype Quantity = El | Er | Et | Bl | Br | Bt | Jl | Jr | Jt | Rho

  /** The coefficient cache left behind by coeffs(): lower stencil indices for
      the primal and dual lattices and the normalized offsets deltax, deltar. */
  datatype Shape = Shape(ip: int, jp: int, id: int, jd: int, deltax: real, deltar: real)

  /** coeffs(xpn, rpn). */
  type Coeffs = (real, real) -> Shape

  /** compute / compute_p / compute_d: the stencil-weighted value of a
      quantity's mode m around the cached stencil. */
  type Stencil = (Shape, Quantity, nat) -> Complex

  /** A particle position; r is its distance sqrt(y^2 + z^2) from the axis,
      supplied by the caller. */
  datatype Position = Position(x: real, y: real, z: real, r: real)

  /** r is the true radius and the particle is off the axis. */
  predicate OffAxis(p: Position) {
    p.r > 0.0 && p.r * p.r == p.y * p.y + p.z * p.z
  }

  /** The current components JLoc->x, JLoc->y, JLoc->z. */
  datatype LocalFields = LocalFields(x: real, y: real, z: real)

  /** The result of an entry point: it ran, or it stopped with ERROR(message). */
  datatype Outcome = Done | Fail(message: string)

  /** e^{-i theta} = (y - i z) / r: the factor that, scaled by r, gives y - i z. */
  function PhaseFactor(p: Position): (e: Complex)
    requires p.r > 0.0
    ensures Mul(e, Complex(p.r, 0.0)) == Complex(p.y, -p.z)
  {
    var rInv := 1.0 / p.r;
    Complex(p.y * rInv, -p.z * rInv)
  }

  /** Off the axis the phase factor has modulus one. */
  lemma PhaseOnUnitCircle(p: Position)
    requires OffAxis(p)
    ensures Norm2(PhaseFactor(p)) == 1.0
  {
    var e := PhaseFactor(p);
    assert e.re * p.r == p.y && e.im * p.r == -p.z;
    calc {
      Norm2(e) * (p.r * p.r);
      (e.re * p.r) * (e.re * p.r) + (e.im * p.r) * (e.im * p.r);
      p.y * p.y + p.z * p.z;
      p.r * p.r;
    }
    assert p.r * p.r > 0.0;
  }

  // ---------------------------------------------------------------------------
  // The mode sum.
  // ---------------------------------------------------------------------------

  /** sum over m = 1 .. n-1 of Re(compute(s, q, m) * e^m). */
  function ModeSeries(compute: Stencil, s: Shape, q: Quantity, e: Complex, n: nat): real {
    if n <= 1 then 0.0 else ModeSeries(compute, s, q, e, n - 1) + Mul(compute(s, q, n - 1), Pow(e, n - 1)).re
  }

  /** The quantity at the particle before rotation: the real part of mode 0
      plus the higher modes at the particle's angle. */
  function ModeSum(compute: Stencil, s: Shape, q: Quantity, e: Complex, nmodes: nat): real {
    compute(s, q, 0).re + ModeSeries(compute, s, q, e, nmodes)
  }

  /** If every mode above 0 vanishes the result is mode 0's real part,
      whatever the particle's angle. */
  lemma {:induction false} AxisymmetricFieldIgnoresAngle(compute: Stencil, s: Shape, q: Quantity, e: Complex, n: nat)
    requires forall m :: 1 <= m < n ==> compute(s, q, m) == Complex(0.0, 0.0)
    ensures ModeSum(compute, s, q, e, n) == compute(s, q, 0).re
  {
    if n > 1 {
      AxisymmetricFieldIgnoresAngle(compute, s, q, e, n - 1);
      assert compute(s, q, n - 1) == Complex(0.0, 0.0);
    }
  }

  /** On the unit circle no mode is amplified: the square of each mode's
      contribution is at most the squared modulus of that mode. */
  lemma ModeTermBounded(v: Complex, e: Complex, m: nat)
    requires Norm2(e) == 1.0
    ensures Mul(v, Pow(e, m)).re * Mul(v, Pow(e, m)).re <= Norm2(v)
  {
    var w := Pow(e, m);
    UnitPow(e, m);
    Norm2Mul(v, w);
    var t := Mul(v, w);
    assert Norm2(t) == Norm2(v) * 1.0;
    assert t.im * t.im >= 0.0;
  }

  /** The mode loop of fields() and fieldsAndCurrents(), for the quantities qs:
      mode 0's real part first, then one mode per step, the accumulator
      exp_mm_theta taking one more factor e per step. */
  method SumModes(compute: Stencil, s: Shape, qs: seq<Quantity>, e: Complex, nmodes: nat) returns (loc: seq<real>)
    ensures |loc| == |qs|
    ensures forall n :: 0 <= n < |qs| ==> loc[n] == ModeSum(compute, s, qs[n], e, nmodes)
  {
    loc := seq(|qs|, n requires 0 <= n < |qs| => compute(s, qs[n], 0).re);
    var expMmTheta := One;
    var m := 1;
    while m < nmodes
      invariant 1 <= m && (m <= nmodes || m == 1)
      invariant expMmTheta == Pow(e, m - 1)
      invariant |loc| == |qs|
      invariant forall n :: 0 <= n < |qs| ==> loc[n] == compute(s, qs[n], 0).re + ModeSeries(compute, s, qs[n], e, m)
    {
      expMmTheta := Mul(expMmTheta, e);
      loc := seq(|qs|, n requires 0 <= n < |qs| => loc[n] + Mul(compute(s, qs[n], m), expMmTheta).re);
      m := m + 1;
    }
  }

  // ---------------------------------------------------------------------------
  // The rotation from (radial, azimuthal) to (y, z).
  // ---------------------------------------------------------------------------

  /** A transverse pair after rotation: the y and z components. */
  datatype Transverse = Transverse(y: real, z: real)

  /** (c * radial + s * azimuthal, -s * radial + c * azimuthal) with c, s the
      real and imaginary parts of e. */
  function Rotate(e: Complex, radial: real, azimuthal: real): (t: Transverse)
    ensures Complex(t.y, t.z) == Mul(Complex(radial, azimuthal), Conj(e))
  {
    Transverse(e.re * radial + e.im * azimuthal, -e.im * radial + e.re * azimuthal)
  }

  /** With the particle's own phase factor the rotation is the projection of
      the cylindrical pair on the Cartesian y and z axes. */
  lemma RotationIsCartesianProjection(p: Position, radial: real, azimuthal: real)
    requires p.r > 0.0
    ensures Rotate(PhaseFactor(p), radial, azimuthal)
         == Transverse((p.y * radial - p.z * azimuthal) / p.r, (p.z * radial + p.y * azimuthal) / p.r)
  {
  }

  /** A rotation by a unit phase factor keeps the transverse magnitude. */
  lemma RotationPreservesMagnitude(e: Complex, radial: real, azimuthal: real)
    requires Norm2(e) == 1.0
    ensures var t := Rotate(e, radial, azimuthal);
      t.y * t.y + t.z * t.z == radial * radial + azimuthal * azimuthal
  {
    var c, s := e.re, e.im;
    var t := Rotate(e, radial, azimuthal);
    calc {
      t.y * t.y + t.z * t.z;
      (c * radial + s * azimuthal) * (c * radial + s * azimuthal)
        + (-s * radial + c * azimuthal) * (-s * radial + c * azimuthal);
      (c * c + s * s) * (radial * radial) + (c * c + s * s) * (azimuthal * azimuthal);
    }
  }

  /** Rotating back by the conjugate phase recovers the (radial, azimuthal) pair. */
  lemma RotationUndoneByConjugate(e: Complex, radial: real, azimuthal: real)
    requires Norm2(e) == 1.0
    ensures var t := Rotate(e, radial, azimuthal);
      Rotate(Conj(e), t.y, t.z) == Transverse(radial, azimuthal)
  {
    var c, s := e.re, e.im;
    var t := Rotate(e, radial, azimuthal);
    calc {
      c * t.y - s * t.z;
      c * (c * radial + s * azimuthal) - s * (-s * radial + c * azimuthal);
      (c * c + s * s) * radial;
    }
    calc {
      s * t.y + c * t.z;
      s * (c * radial + s * azimuthal) + c * (-s * radial + c * azimuthal);
      (c * c + s * s) * azimuthal;
    }
  }

  /** A sampled vector in (y, z) form: the longitudinal component as is,
      the (radial, azimuthal) pair rotated by e. */
  function Oriented(e: Complex, longitudinal: real, radial: real, azimuthal: real): LocalFields {
    var t := Rotate(e, radial, azimuthal);
    LocalFields(longitudinal, t.y, t.z)
  }

  /** Entries k, k + n and k + 2n of a thread buffer: the three components
      of particle k when n particles share the buffer. */
  function Column(buffer: array<real>, k: int, n: int): LocalFields
    requires 0 <= k && 0 <= n && k + 2 * n < buffer.Length
    reads buffer
  {
    LocalFields(buffer[k], buffer[k + n], buffer[k + 2 * n])
  }

  /** Writes one sampled vector at slots off, off + n, off + 2n of a particle
      buffer: the longitudinal component as is, then the (radial, azimuthal)
      pair, rotated in place through the temporary delta2. */
  method StoreRotated(loc: array<real>, off: nat, n: nat, e: Complex, longitudinal: real, radial: real, azimuthal: real)
    requires 0 < n && off + 2 * n < loc.Length
    modifies loc
    ensures Column(loc, off, n) == Oriented(e, longitudinal, radial, azimuthal)
    ensures forall q :: 0 <= q < loc.Length && q != off && q != off + n && q != off + 2 * n ==> loc[q] == old(loc[q])
  {
    loc[off], loc[off + n], loc[off + 2 * n] := longitudinal, radial, azimuthal;
    var delta2 := e.re * loc[off + n] + e.im * loc[off + 2 * n];
    loc[off + 2 * n] := -e.im * loc[off + n] + e.re * loc[off + 2 * n];
    loc[off + n] := delta2;
  }

  /** Stores the sums loc[0..3] (El, Er, Et) and loc[3..6] (Bl, Br, Bt) of
      particle k in the E and B buffers shared by n particles, each
      transverse pair rotated by e. */
  method StoreFields(ePart: array<real>, bPart: array<real>, k: nat, n: nat, e: Complex, loc: seq<real>)
    requires k < n && ePart.Length == 3 * n && bPart.Length == 3 * n && ePart != bPart && 6 <= |loc|
    modifies ePart, bPart
    ensures Column(ePart, k, n) == Oriented(e, loc[0], loc[1], loc[2])
    ensures Column(bPart, k, n) == Oriented(e, loc[3], loc[4], loc[5])
    ensures forall j :: 0 <= j < n && j != k ==> Column(ePart, j, n) == old(Column(ePart, j, n))
    ensures forall j :: 0 <= j < n && j != k ==> Column(bPart, j, n) == old(Column(bPart, j, n))
  {
    StoreRotated(ePart, k, n, e, loc[0], loc[1], loc[2]);
    StoreRotated(bPart, k, n, e, loc[3], loc[4], loc[5]);
  }

  /** The current at the particle, its (Jr, Jt) pair rotated in place
      through the temporary delta2. */
  method RotateCurrent(e: Complex, jl: real, jr: real, jt: real) returns (jLoc: LocalFields)
    ensures jLoc == Oriented(e, jl, jr, jt)
  {
    jLoc := LocalFields(jl, jr, jt);
    var delta2 := e.re * jLoc.y + e.im * jLoc.z;
    jLoc := jLoc.(z := -e.im * jLoc.y + e.re * jLoc.z);
    jLoc := jLoc.(y := delta2);
  }

  /** What the thread buffers hold for one particle: its E and B samples,
      its cache indices (ip_, jp_), its offsets (deltax, deltar) and its
      phase factor. */
  datatype Buffered = Buffered(e: LocalFields, b: LocalFields, cell: (int, int), offsets: (real, real), phase: Complex)

  /** The entries of particle k in the thread buffers shared by n particles:
      k + c * n for each component c. */
  function Slots(ePart: array<real>, bPart: array<real>, iold: array<int>, delta: array<real>,
                 expMThetaOld: array<Complex>, k: int, n: int): Buffered
    requires 0 <= k < n && 3 * n <= ePart.Length && 3 * n <= bPart.Length
    requires 2 * n <= iold.Length && 2 * n <= delta.Length && n <= expMThetaOld.Length
    reads ePart, bPart, iold, delta, expMThetaOld
  {
    Buffered(Column(ePart, k, n), Column(bPart, k, n), (iold[k], iold[k + n]), (delta[k], delta[k + n]), expMThetaOld[k])
  }

  class InterpolatorAM2Order {
    const dlInv: real
    const drInv: real
    const nmodes: nat
    const dr: real
    /** exp_m_theta of the last particle interpolated. */
    var expMTheta: Complex
    /** The coefficient cache of the last particle interpolated. */
    var shape: Shape

    constructor (cellLengthL: real, cellLengthR: real, nmodes: nat)
      requires cellLengthL > 0.0 && cellLengthR > 0.0
      ensures dlInv * cellLengthL == 1.0 && drInv * cellLengthR == 1.0
      ensures this.nmodes == nmodes && dr == cellLengthR
    {
      dlInv := 1.0 / cellLengthL;
      drInv := 1.0 / cellLengthR;
      this.nmodes := nmodes;
      dr := cellLengthR;
      expMTheta := One;
      shape := Shape(0, 0, 0, 0, 0.0, 0.0);
    }

    /** The cache coeffs() computes for the normalized position of p. */
    function ShapeAt(coeffs: Coeffs, p: Position): Shape {
      coeffs(p.x * dlInv, p.r * drInv)
    }

    /** The triple (l, radial, azimuthal) interpolated at p, the last two
        turned into their (y, z) components. */
    function Sample(coeffs: Coeffs, compute: Stencil, p: Position, l: Quantity, radial: Quantity, azimuthal: Quantity): LocalFields
      requires p.r > 0.0
    {
      var s, e := ShapeAt(coeffs, p), PhaseFactor(p);
      Oriented(e, ModeSum(compute, s, l, e, nmodes), ModeSum(compute, s, radial, e, nmodes), ModeSum(compute, s, azimuthal, e, nmodes))
    }

    /** Off the axis, the sampled (y, z) pair has the magnitude of the
        (radial, azimuthal) mode sums it was rotated from. */
    lemma SampleKeepsTransverseMagnitude(coeffs: Coeffs, compute: Stencil, p: Position,
                                         l: Quantity, radial: Quantity, azimuthal: Quantity)
      requires OffAxis(p)
      ensures var f, s, e := Sample(coeffs, compute, p, l, radial, azimuthal), ShapeAt(coeffs, p), PhaseFactor(p);
        f.y * f.y + f.z * f.z
        == ModeSum(compute, s, radial, e, nmodes) * ModeSum(compute, s, radial, e, nmodes)
           + ModeSum(compute, s, azimuthal, e, nmodes) * ModeSum(compute, s, azimuthal, e, nmodes)
    {
      var s, e := ShapeAt(coeffs, p), PhaseFactor(p);
      PhaseOnUnitCircle(p);
      RotationPreservesMagnitude(e, ModeSum(compute, s, radial, e, nmodes), ModeSum(compute, s, azimuthal, e, nmodes));
    }

    /** What fieldsWrapper() buffers for a particle at p. */
    function Expected(coeffs: Coeffs, compute: Stencil, p: Position): Buffered
      requires p.r > 0.0
    {
      var s := ShapeAt(coeffs, p);
      Buffered(Sample(coeffs, compute, p, El, Er, Et), Sample(coeffs, compute, p, Bl, Br, Bt),
               (s.ip, s.jp), (s.deltax, s.deltar), PhaseFactor(p))
    }

    /** fields(): E and B at particle ipart, the component c of each written
        at ELoc + c * nparts and BLoc + c * nparts, where ELoc and BLoc point
        at entry ipart of the thread buffers ePart and bPart. */
    method Fields(coeffs: Coeffs, compute: Stencil, particles: seq<Position>, ipart: nat, nparts: nat,
                  ePart: array<real>, bPart: array<real>)
      requires ipart < |particles| && particles[ipart].r > 0.0
      requires ipart < nparts && ePart.Length == 3 * nparts && bPart.Length == 3 * nparts
      requires ePart != bPart
      modifies this, ePart, bPart
      ensures expMTheta == PhaseFactor(particles[ipart])
      ensures shape == ShapeAt(coeffs, particles[ipart])
      ensures Column(ePart, ipart, nparts) == Sample(coeffs, compute, particles[ipart], El, Er, Et)
      ensures Column(bPart, ipart, nparts) == Sample(coeffs, compute, particles[ipart], Bl, Br, Bt)
      ensures forall k :: 0 <= k < nparts && k != ipart ==> Column(ePart, k, nparts) == old(Column(ePart, k, nparts))
      ensures forall k :: 0 <= k < nparts && k != ipart ==> Column(bPart, k, nparts) == old(Column(bPart, k, nparts))
    {
      var p := particles[ipart];
      expMTheta := PhaseFactor(p);
      shape := ShapeAt(coeffs, p);
      var loc := SumModes(compute, shape, [El, Er, Et, Bl, Br, Bt], expMTheta, nmodes);
      StoreFields(ePart, bPart, ipart, nparts, expMTheta, loc);
    }

    /** fieldsAndCurrents(): E and B by the same mode sum and rotation as
        fields(), evaluated with compute_p / compute_d (the `compute`
        argument here), for the single particle istart, nparts being the
        number of particles; plus the current J, whose (Jr, Jt) pair is
        rotated the same way, and the unrotated density. */
    method FieldsAndCurrents(coeffs: Coeffs, compute: Stencil, particles: seq<Position>, istart: nat,
                             ePart: array<real>, bPart: array<real>)
      returns (jLoc: LocalFields, rhoLoc: real)
      requires istart < |particles| && particles[istart].r > 0.0
      requires ePart.Length == 3 * |particles| && bPart.Length == 3 * |particles|
      requires ePart != bPart
      modifies this, ePart, bPart
      ensures expMTheta == PhaseFactor(particles[istart])
      ensures shape == ShapeAt(coeffs, particles[istart])
      ensures Column(ePart, istart, |particles|) == Sample(coeffs, compute, particles[istart], El, Er, Et)
      ensures Column(bPart, istart, |particles|) == Sample(coeffs, compute, particles[istart], Bl, Br, Bt)
      ensures jLoc == Sample(coeffs, compute, particles[istart], Jl, Jr, Jt)
      ensures rhoLoc == ModeSum(compute, shape, Rho, expMTheta, nmodes)
      ensures forall k :: 0 <= k < |particles| && k != istart ==>
                Column(ePart, k, |particles|) == old(Column(ePart, k, |particles|))
      ensures forall k :: 0 <= k < |particles| && k != istart ==>
                Column(bPart, k, |particles|) == old(Column(bPart, k, |particles|))
    {
      var ipart := istart;
      var nparts := |particles|;
      var p := particles[ipart];
      expMTheta := PhaseFactor(p);
      shape := ShapeAt(coeffs, p);
      var loc := SumModes(compute, shape, [El, Er, Et, Bl, Br, Bt, Jl, Jr, Jt, Rho], expMTheta, nmodes);
      assert loc[0] == ModeSum(compute, shape, El, expMTheta, nmodes) && loc[1] == ModeSum(compute, shape, Er, expMTheta, nmodes)
          && loc[2] == ModeSum(compute, shape, Et, expMTheta, nmodes);
      assert loc[3] == ModeSum(compute, shape, Bl, expMTheta, nmodes) && loc[4] == ModeSum(compute, shape, Br, expMTheta, nmodes)
          && loc[5] == ModeSum(compute, shape, Bt, expMTheta, nmodes);
      assert loc[6] == ModeSum(compute, shape, Jl, expMTheta, nmodes) && loc[7] == ModeSum(compute, shape, Jr, expMTheta, nmodes)
          && loc[8] == ModeSum(compute, shape, Jt, expMTheta, nmodes);
      StoreFields(ePart, bPart, ipart, nparts, expMTheta, loc);
      jLoc := RotateCurrent(expMTheta, loc[6], loc[7], loc[8]);
      rhoLoc := loc[9];
    }

    /** oneField(): not available in this geometry. */
    method OneField(particles: seq<Position>, istart: nat, iend: nat, fieldLoc: array<real>) returns (status: Outcome)
      ensures status == Fail("Single field AM2O interpolator not available")
    {
      status := Fail("Single field AM2O interpolator not available");
    }

    /** fieldsSelection(): not available in this geometry. */
    method FieldsSelection(particles: seq<Position>, buffer: array<real>, offset: int, selection: seq<nat>)
      returns (status: Outcome)
      ensures status == Fail("To Do")
    {
      status := Fail("To Do");
    }

    /** One step of fieldsWrapper(): fields() for particle ipart, then its
        cache indices, offsets and phase factor into the per-particle buffers. */
    method FieldsBuffered(coeffs: Coeffs, compute: Stencil, particles: seq<Position>, ipart: nat,
                          ePart: array<real>, bPart: array<real>,
                          iold: array<int>, delta: array<real>, expMThetaOld: array<Complex>)
      requires ipart < |particles| && particles[ipart].r > 0.0
      requires ePart.Length == 3 * |particles| && bPart.Length == 3 * |particles|
      requires iold.Length == 2 * |particles| && delta.Length == 2 * |particles| && expMThetaOld.Length == |particles|
      requires ePart != bPart && delta != ePart && delta != bPart
      modifies this, ePart, bPart, iold, delta, expMThetaOld
      ensures expMTheta == PhaseFactor(particles[ipart]) && shape == ShapeAt(coeffs, particles[ipart])
      ensures Slots(ePart, bPart, iold, delta, expMThetaOld, ipart, |particles|) == Expected(coeffs, compute, particles[ipart])
      ensures forall k :: 0 <= k < |particles| && k != ipart ==>
                (Slots(ePart, bPart, iold, delta, expMThetaOld, k, |particles|)
                 == old(Slots(ePart, bPart, iold, delta, expMThetaOld, k, |particles|)))
    {
      var nparts := |particles|;
      Fields(coeffs, compute, particles, ipart, nparts, ePart, bPart);
      iold[ipart + 0 * nparts] := shape.ip;
      iold[ipart + 1 * nparts] := shape.jp;
      delta[ipart + 0 * nparts] := shape.deltax;
      delta[ipart + 1 * nparts] := shape.deltar;
      expMThetaOld[ipart] := expMTheta;
    }

    /** fieldsWrapper(): for every particle in [istart, iend), fields() into
        its own entries of the thread buffers, then its cache indices ip_, jp_
        into iold, its offsets deltax, deltar into delta (at ipart and
        ipart + nparts) and its phase factor into expMThetaOld. */
    method FieldsWrapper(coeffs: Coeffs, compute: Stencil, particles: seq<Position>, istart: nat, iend: nat,
                         ePart: array<real>, bPart: array<real>,
                         iold: array<int>, delta: array<real>, expMThetaOld: array<Complex>)
      requires iend <= |particles|
      requires forall k :: istart <= k < iend ==> particles[k].r > 0.0
      requires ePart.Length == 3 * |particles| && bPart.Length == 3 * |particles|
      requires iold.Length == 2 * |particles| && delta.Length == 2 * |particles| && expMThetaOld.Length == |particles|
      requires ePart != bPart && delta != ePart && delta != bPart
      modifies this, ePart, bPart, iold, delta, expMThetaOld
      ensures forall k :: 0 <= k < |particles| ==>
                (Slots(ePart, bPart, iold, delta, expMThetaOld, k, |particles|)
                 == if istart <= k < iend then Expected(coeffs, compute, particles[k])
                    else old(Slots(ePart, bPart, iold, delta, expMThetaOld, k, |particles|)))
      ensures istart < iend ==> expMTheta == PhaseFactor(particles[iend - 1]) && shape == ShapeAt(coeffs, particles[iend - 1])
      ensures iend <= istart ==> expMTheta == old(expMTheta) && shape == old(shape)
    {
      var nparts := |particles|;
      var ipart := istart;
      while ipart < iend
        invariant istart <= ipart && (ipart <= iend || ipart == istart)
        invariant forall k :: 0 <= k < nparts ==>
                    (Slots(ePart, bPart, iold, delta, expMThetaOld, k, nparts)
                     == if istart <= k < ipart then Expected(coeffs, compute, particles[k])
                        else old(Slots(ePart, bPart, iold, delta, expMThetaOld, k, nparts)))
        invariant istart < ipart ==> expMTheta == PhaseFactor(particles[ipart - 1]) && shape == ShapeAt(coeffs, particles[ipart - 1])
        invariant ipart == istart ==> expMTheta == old(expMTheta) && shape == old(shape)
      {
        FieldsBuffered(coeffs, compute, particles, ipart, ePart, bPart, iold, delta, expMThetaOld);
        ipart := ipart + 1;
      }
    }
  }
}
