/** The Maxwell-Faraday update of the 3D Cartesian solver with the Lehe
    dispersion-tailored stencil (class MF_Solver3D_Lehe). The magnetic field
    B is advanced in place by adding a weighted discrete curl of the electric
    field E on a staggered (Yee) lattice: every axis has a primal lattice of
    n points and a dual lattice of n + 1 points.

    The solver's operator() runs nine loop nests: three interior passes that
    use the alpha/beta/delta stencil and six passes on the planes next to the
    x edges that use the plain two-point curl. Each loop nest is one `Pass`
    here; `Increment` is the value a pass adds at one point, and `ApplyPass`
    is the loop nest itself. */
module FaradayLehe {

  /** Primal extents nx_p, ny_p, nz_p of the patch; each dual extent is one more. */
  datatype Extents = Extents(nxP: nat, nyP: nat, nzP: nat) {
    function nxD(): nat { nxP + 1 }
    function nyD(): nat { nyP + 1 }
    function nzD(): nat { nzP + 1 }

    /** The solver's indices are unsigned. ny_p >= 1 and nz_p >= 1 keep the
        loop bounds ny_p - 1, ny_d - 2 and nz_d - 2 from wrapping around;
        nx_p >= 2 keeps the edge-pass reads at x index 1 (Ez, Ey) and
        nx_d - 3 in range. */
    predicate Valid() {
      nxP >= 2 && nyP >= 1 && nzP >= 1
    }
  }

  /** The six field grids of one patch. Staggering (x, y, z):
      Ex (d,p,p), Ey (p,d,p), Ez (p,p,d), Bx (p,d,d), By (d,p,d), Bz (d,d,p). */
  datatype ElectroMagn = ElectroMagn(
    Ex: array3<real>, Ey: array3<real>, Ez: array3<real>,
    Bx: array3<real>, By: array3<real>, Bz: array3<real>)
  {
    predicate Shaped(g: Extents) {
      && Ex.Length0 == g.nxD() && Ex.Length1 == g.nyP && Ex.Length2 == g.nzP
      && Ey.Length0 == g.nxP && Ey.Length1 == g.nyD() && Ey.Length2 == g.nzP
      && Ez.Length0 == g.nxP && Ez.Length1 == g.nyP && Ez.Length2 == g.nzD()
      && Bx.Length0 == g.nxP && Bx.Length1 == g.nyD() && Bx.Length2 == g.nzD()
      && By.Length0 == g.nxD() && By.Length1 == g.nyP && By.Length2 == g.nzD()
      && Bz.Length0 == g.nxD() && Bz.Length1 == g.nyD() && Bz.Length2 == g.nzP
    }

    function B(t: Component): array3<real> {
      match t
      case X => Bx
      case Y => By
      case Z => Bz
    }
  }

  /** Which magnetic component a pass writes. */
  datatype Component = X | Y | Z

  /** The solver's stencil coefficients and Courant ratios dt/dx, dt/dy, dt/dz. */
  datatype Coefficients = Coefficients(
    dtOverDx: real, dtOverDy: real, dtOverDz: real,
    alphaX: real, alphaY: real,
    betaYx: real, betaXy: real, betaXz: real,
    deltaX: real)

  /** The coefficients the constructor sets up. delta_x, which the source
      derives from sin(pi * dt/dx / 2), is passed in. */
  function LeheCoefficients(dx: real, dy: real, dz: real, dt: real, deltaX: real): (c: Coefficients)
    requires dx > 0.0 && dy > 0.0 && dz > 0.0
    ensures c.dtOverDx * dx == dt && c.dtOverDy * dy == dt && c.dtOverDz * dz == dt
    ensures c.betaYx == 1.0 / 8.0
    ensures 8.0 * c.betaXy * (dy * dy) == dx * dx
    ensures 8.0 * c.betaXz * (dz * dz) == dx * dx
    ensures c.deltaX == deltaX
    ensures c.alphaY + 2.0 * c.betaYx == 1.0
    ensures c.alphaX + 2.0 * c.betaXy + 2.0 * c.betaXz + 3.0 * c.deltaX == 1.0
  {
    var betaYx := 1.0 / 8.0;
    var betaXy := (dx / dy) * (dx / dy) / 8.0;
    var betaXz := (dx / dz) * (dx / dz) / 8.0;
    assert 8.0 * betaXy * (dy * dy) == dx * dx by {
      assert (dx / dy) * dy == dx;
    }
    assert 8.0 * betaXz * (dz * dz) == dx * dx by {
      assert (dx / dz) * dz == dx;
    }
    Coefficients(dt / dx, dt / dy, dt / dz,
      1.0 - 2.0 * betaXy - 2.0 * betaXz - 3.0 * deltaX, 1.0 - 2.0 * betaYx,
      betaYx, betaXy, betaXz, deltaX)
  }

  /** The plain Yee coefficients: alpha = 1, beta = delta = 0. */
  predicate IsYee(c: Coefficients) {
    c.alphaX == 1.0 && c.alphaY == 1.0 && c.betaYx == 0.0 && c.betaXy == 0.0 && c.betaXz == 0.0 && c.deltaX == 0.0
  }

  /** The reset to the unmodified Yee scheme that the constructor keeps as a
      comment. It satisfies the same two consistency identities as the Lehe
      coefficients, with all the weight on the central difference. */
  function YeeCoefficients(dx: real, dy: real, dz: real, dt: real): (c: Coefficients)
    requires dx > 0.0 && dy > 0.0 && dz > 0.0
    ensures IsYee(c)
    ensures c.dtOverDx * dx == dt && c.dtOverDy * dy == dt && c.dtOverDz * dz == dt
    ensures c.alphaY + 2.0 * c.betaYx == 1.0
    ensures c.alphaX + 2.0 * c.betaXy + 2.0 * c.betaXz + 3.0 * c.deltaX == 1.0
  {
    Coefficients(dt / dx, dt / dy, dt / dz, 1.0, 1.0, 0.0, 0.0, 0.0, 0.0)
  }

  // ---------------------------------------------------------------------------
  // The curl formulas, each with the index domain on which all its reads are in
  // range (the well-formedness of these functions is the bounds proof).
  // ---------------------------------------------------------------------------

  /** Interior Bx^(p,d,d) increment: alpha/beta-weighted d/dy of Ez and d/dz of Ey. */
  function BxLehe(c: Coefficients, g: Extents, em: ElectroMagn, i: int, j: int, k: int): (r: real)
    requires em.Shaped(g)
    requires 1 <= i && i + 1 < g.nxP && 1 <= j < g.nyP && 1 <= k < g.nzP
    reads em.Ey, em.Ez
    ensures YeeDomain(X, g, i, j, k)
    ensures IsYee(c) ==> r == BxYee(c, g, em, i, j, k)
  {
    var ey, ez := em.Ey, em.Ez;
    -c.dtOverDy * (  c.alphaY * (ez[i, j, k] - ez[i, j - 1, k])
                   + c.betaYx * (ez[i + 1, j, k] - ez[i + 1, j - 1, k] + ez[i - 1, j, k] - ez[i - 1, j - 1, k]))
    + c.dtOverDz * (  c.alphaY * (ey[i, j, k] - ey[i, j, k - 1])
                    + c.betaYx * (ey[i + 1, j, k] - ey[i + 1, j, k - 1] + ey[i - 1, j, k] - ey[i - 1, j, k - 1]))
  }

  /** Interior By^(d,p,d) increment: the x derivative of Ez carries the beta_xy,
      beta_xz and the two-cell delta_x terms. */
  function ByLehe(c: Coefficients, g: Extents, em: ElectroMagn, i: int, j: int, k: int): (r: real)
    requires em.Shaped(g)
    requires 2 <= i && i + 1 < g.nxP && 1 <= j && j + 1 < g.nyP && 1 <= k < g.nzP
    reads em.Ex, em.Ez
    ensures YeeDomain(Y, g, i, j, k)
    ensures IsYee(c) ==> r == ByYee(c, g, em, i, j, k)
  {
    var ex, ez := em.Ex, em.Ez;
    c.dtOverDx * (  c.alphaX * (ez[i, j, k] - ez[i - 1, j, k])
                  + c.betaXy * (ez[i, j + 1, k] - ez[i - 1, j + 1, k] + ez[i, j - 1, k] - ez[i - 1, j - 1, k])
                  + c.betaXz * (ez[i, j, k + 1] - ez[i - 1, j, k + 1] + ez[i, j, k - 1] - ez[i - 1, j, k - 1])
                  + c.deltaX * (ez[i + 1, j, k] - ez[i - 2, j, k]))
    - c.dtOverDz * (  c.alphaY * (ex[i, j, k] - ex[i, j, k - 1])
                    + c.betaYx * (ex[i + 1, j, k] - ex[i + 1, j, k - 1] + ex[i - 1, j, k] - ex[i - 1, j, k - 1]))
  }

  /** Interior Bz^(d,d,p) increment. */
  function BzLehe(c: Coefficients, g: Extents, em: ElectroMagn, i: int, j: int, k: int): (r: real)
    requires em.Shaped(g)
    requires 2 <= i && i + 1 < g.nxP && 1 <= j < g.nyP && 1 <= k && k + 1 < g.nzP
    reads em.Ex, em.Ey
    ensures YeeDomain(Z, g, i, j, k)
    ensures IsYee(c) ==> r == BzYee(c, g, em, i, j, k)
  {
    var ex, ey := em.Ex, em.Ey;
    c.dtOverDy * (  c.alphaY * (ex[i, j, k] - ex[i, j - 1, k])
                  + c.betaYx * (ex[i + 1, j, k] - ex[i + 1, j - 1, k] + ex[i - 1, j, k] - ex[i - 1, j - 1, k]))
    - c.dtOverDx * (  c.alphaX * (ey[i, j, k] - ey[i - 1, j, k])
                    + c.betaXy * (ey[i, j + 1, k] - ey[i - 1, j + 1, k] + ey[i, j - 1, k] - ey[i - 1, j - 1, k])
                    + c.betaXz * (ey[i, j, k + 1] - ey[i - 1, j, k + 1] + ey[i, j, k - 1] - ey[i - 1, j, k - 1])
                    + c.deltaX * (ey[i + 1, j, k] - ey[i - 2, j, k]))
  }

  /** Where the two-point curl of component t reads only in-range E values. */
  predicate YeeDomain(t: Component, g: Extents, i: int, j: int, k: int) {
    match t
    case X => 0 <= i < g.nxP && 1 <= j < g.nyP && 1 <= k < g.nzP
    case Y => 1 <= i < g.nxP && 0 <= j < g.nyP && 1 <= k < g.nzP
    case Z => 1 <= i < g.nxP && 1 <= j < g.nyP && 0 <= k < g.nzP
  }

  /** Two-point curl for Bx, used on the planes i = 0 and i = nx_p - 1. */
  function BxYee(c: Coefficients, g: Extents, em: ElectroMagn, i: int, j: int, k: int): real
    requires em.Shaped(g) && YeeDomain(X, g, i, j, k)
    reads em.Ey, em.Ez
  {
    -c.dtOverDy * (em.Ez[i, j, k] - em.Ez[i, j - 1, k]) + c.dtOverDz * (em.Ey[i, j, k] - em.Ey[i, j, k - 1])
  }

  /** Two-point curl for By, used on the planes i = 1 and i = nx_d - 2. */
  function ByYee(c: Coefficients, g: Extents, em: ElectroMagn, i: int, j: int, k: int): real
    requires em.Shaped(g) && YeeDomain(Y, g, i, j, k)
    reads em.Ex, em.Ez
  {
    c.dtOverDx * (em.Ez[i, j, k] - em.Ez[i - 1, j, k]) - c.dtOverDz * (em.Ex[i, j, k] - em.Ex[i, j, k - 1])
  }

  /** Two-point curl for Bz, used on the planes i = 1 and i = nx_d - 2. */
  function BzYee(c: Coefficients, g: Extents, em: ElectroMagn, i: int, j: int, k: int): real
    requires em.Shaped(g) && YeeDomain(Z, g, i, j, k)
    reads em.Ex, em.Ey
  {
    c.dtOverDx * (em.Ey[i - 1, j, k] - em.Ey[i, j, k]) + c.dtOverDy * (em.Ex[i, j, k] - em.Ex[i, j - 1, k])
  }

  /** The plain two-point curl of component t. */
  function YeeCurl(t: Component, c: Coefficients, g: Extents, em: ElectroMagn, i: int, j: int, k: int): real
    requires em.Shaped(g) && YeeDomain(t, g, i, j, k)
    reads em.Ex, em.Ey, em.Ez
  {
    match t
    case X => BxYee(c, g, em, i, j, k)
    case Y => ByYee(c, g, em, i, j, k)
    case Z => BzYee(c, g, em, i, j, k)
  }

  /** The degenerate case for the coefficients the constructor's commented
      reset would produce: every pass adds the plain two-point curl. */
  lemma YeeResetGivesPlainCurl(dx: real, dy: real, dz: real, dt: real, p: Pass, g: Extents, em: ElectroMagn,
                               i: int, j: int, k: int)
    requires dx > 0.0 && dy > 0.0 && dz > 0.0
    requires g.Valid() && em.Shaped(g) && PassBox(p, g).Contains(i, j, k)
    ensures YeeDomain(p.Target(), g, i, j, k)
    ensures Increment(p, YeeCoefficients(dx, dy, dz, dt), g, em, i, j, k)
         == YeeCurl(p.Target(), YeeCoefficients(dx, dy, dz, dt), g, em, i, j, k)
  {
    YeeCoefficientsGivePlainCurl(p, YeeCoefficients(dx, dy, dz, dt), g, em, i, j, k);
  }

  // ---------------------------------------------------------------------------
  // The nine loop nests of operator().
  // ---------------------------------------------------------------------------

  datatype Pass =
    | BxInterior | ByInterior | BzInterior
    | BxXmin | BxXmax | ByXmin | ByXmax | BzXmin | BzXmax
  {
    function Target(): Component {
      match this
      case BxInterior | BxXmin | BxXmax => X
      case ByInterior | ByXmin | ByXmax => Y
      case BzInterior | BzXmin | BzXmax => Z
    }
  }

  function InteriorPass(t: Component): Pass {
    match t
    case X => BxInterior
    case Y => ByInterior
    case Z => BzInterior
  }

  function XminPass(t: Component): Pass {
    match t
    case X => BxXmin
    case Y => ByXmin
    case Z => BzXmin
  }

  function XmaxPass(t: Component): Pass {
    match t
    case X => BxXmax
    case Y => ByXmax
    case Z => BzXmax
  }

  /** Half-open index ranges [i0, i1) x [j0, j1) x [k0, k1); an empty range is
      one whose upper bound does not exceed its lower bound. */
  datatype Box = Box(i0: int, i1: int, j0: int, j1: int, k0: int, k1: int) {
    predicate Contains(i: int, j: int, k: int) {
      i0 <= i < i1 && j0 <= j < j1 && k0 <= k < k1
    }
  }

  /** The loop bounds of each pass, as written in operator(). */
  function PassBox(p: Pass, g: Extents): Box {
    match p
    case BxInterior => Box(1, g.nxP - 1, 1, g.nyD() - 1, 1, g.nzD() - 1)
    case ByInterior => Box(2, g.nxD() - 2, 1, g.nyP - 1, 1, g.nzD() - 1)
    case BzInterior => Box(2, g.nxD() - 2, 1, g.nyD() - 1, 1, g.nzP - 1)
    case BxXmin => Box(0, 1, 1, g.nyD() - 1, 1, g.nzD() - 1)
    case BxXmax => Box(g.nxP - 1, g.nxP, 1, g.nyD() - 1, 1, g.nzD() - 1)
    case ByXmin => Box(1, 2, 0, g.nyP, 2, g.nzD() - 2)
    case ByXmax => Box(g.nxD() - 2, g.nxD() - 1, 0, g.nyP, 2, g.nzD() - 2)
    case BzXmin => Box(1, 2, 2, g.nyD() - 2, 0, g.nzP)
    case BzXmax => Box(g.nxD() - 2, g.nxD() - 1, 2, g.nyD() - 2, 0, g.nzP)
  }

  /** What pass p adds to its target at (i, j, k). Calling the curl formulas
      here proves that every E read of every pass is in range. */
  function Increment(p: Pass, c: Coefficients, g: Extents, em: ElectroMagn, i: int, j: int, k: int): real
    requires g.Valid() && em.Shaped(g) && PassBox(p, g).Contains(i, j, k)
    reads em.Ex, em.Ey, em.Ez
  {
    match p
    case BxInterior => BxLehe(c, g, em, i, j, k)
    case ByInterior => ByLehe(c, g, em, i, j, k)
    case BzInterior => BzLehe(c, g, em, i, j, k)
    case BxXmin | BxXmax => BxYee(c, g, em, i, j, k)
    case ByXmin | ByXmax => ByYee(c, g, em, i, j, k)
    case BzXmin | BzXmax => BzYee(c, g, em, i, j, k)
  }

  /** What pass p adds at an arbitrary point: nothing outside its loop bounds. */
  function Contribution(p: Pass, c: Coefficients, g: Extents, em: ElectroMagn, i: int, j: int, k: int): real
    requires g.Valid() && em.Shaped(g)
    reads em.Ex, em.Ey, em.Ez
  {
    if PassBox(p, g).Contains(i, j, k) then Increment(p, c, g, em, i, j, k) else 0.0
  }

  /** Total change operator() makes to component t at (i, j, k). */
  function Update(t: Component, c: Coefficients, g: Extents, em: ElectroMagn, i: int, j: int, k: int): real
    requires g.Valid() && em.Shaped(g)
    reads em.Ex, em.Ey, em.Ez
  {
    Contribution(InteriorPass(t), c, g, em, i, j, k) + Contribution(XminPass(t), c, g, em, i, j, k)
      + Contribution(XmaxPass(t), c, g, em, i, j, k)
  }

  predicate InArray(b: array3<real>, i: int, j: int, k: int) {
    0 <= i < b.Length0 && 0 <= j < b.Length1 && 0 <= k < b.Length2
  }

  // ---------------------------------------------------------------------------
  // Properties of the update.
  // ---------------------------------------------------------------------------

  /** Every point a pass writes lies inside its target array. */
  lemma PassWritesInsideTarget(p: Pass, g: Extents, em: ElectroMagn, i: int, j: int, k: int)
    requires g.Valid() && em.Shaped(g) && PassBox(p, g).Contains(i, j, k)
    ensures InArray(em.B(p.Target()), i, j, k)
  {
  }

  /** With at least three primal points along x, the three passes that write
      one component have disjoint loop ranges: each B point receives at most
      one increment per call. */
  lemma AtMostOneIncrement(g: Extents, p: Pass, q: Pass, i: int, j: int, k: int)
    requires g.nxP >= 3 && p != q && p.Target() == q.Target()
    ensures !(PassBox(p, g).Contains(i, j, k) && PassBox(q, g).Contains(i, j, k))
  {
  }

  /** With exactly two primal points along x, the x-min and x-max planes of By
      (and of Bz) are the same plane i = 1, which then receives two increments. */
  lemma EdgePlanesCoincideWhenTwoCellsWide(g: Extents)
    requires g.nxP == 2 && g.nyP >= 4 && g.nzP >= 4
    ensures PassBox(ByXmin, g).Contains(1, 0, 2) && PassBox(ByXmax, g).Contains(1, 0, 2)
    ensures PassBox(BzXmin, g).Contains(1, 2, 0) && PassBox(BzXmax, g).Contains(1, 2, 0)
  {
  }

  /** Points outside every loop range of their component get no increment. */
  lemma PointsOutsideTheLoopsAreNotUpdated(c: Coefficients, g: Extents, em: ElectroMagn, i: int, j: int, k: int)
    requires g.Valid() && em.Shaped(g)
    ensures i == 0 || i == g.nxD() - 1 ==> Update(Y, c, g, em, i, j, k) == 0.0 && Update(Z, c, g, em, i, j, k) == 0.0
    ensures j == 0 || j == g.nyD() - 1 || k == 0 || k == g.nzD() - 1 ==> Update(X, c, g, em, i, j, k) == 0.0
    ensures k == 0 || k == g.nzD() - 1 ==> Update(Y, c, g, em, i, j, k) == 0.0
    ensures j == 0 || j == g.nyD() - 1 ==> Update(Z, c, g, em, i, j, k) == 0.0
  {
  }

  /** Each array holds one value everywhere. */
  ghost predicate Uniform(a: array3<real>, u: real)
    reads a
  {
    forall x, y, z :: InArray(a, x, y, z) ==> a[x, y, z] == u
  }

  /** Every increment is a combination of differences of E values, so a
      spatially uniform E (in particular E = 0) leaves B unchanged. */
  lemma UniformElectricFieldLeavesBUnchanged(
    t: Component, c: Coefficients, g: Extents, em: ElectroMagn, ux: real, uy: real, uz: real, i: int, j: int, k: int)
    requires g.Valid() && em.Shaped(g)
    requires Uniform(em.Ex, ux) && Uniform(em.Ey, uy) && Uniform(em.Ez, uz)
    ensures Update(t, c, g, em, i, j, k) == 0.0
  {
  }

  /** With alpha = 1 and beta = delta = 0 every pass, interior ones included,
      adds exactly the plain two-point Yee curl: the Lehe stencil contains the
      Yee scheme as its degenerate case. */
  lemma YeeCoefficientsGivePlainCurl(p: Pass, c: Coefficients, g: Extents, em: ElectroMagn, i: int, j: int, k: int)
    requires IsYee(c) && g.Valid() && em.Shaped(g) && PassBox(p, g).Contains(i, j, k)
    ensures YeeDomain(p.Target(), g, i, j, k)
    ensures Increment(p, c, g, em, i, j, k) == YeeCurl(p.Target(), c, g, em, i, j, k)
  {
  }

  /** The innermost loop of a loop nest: for k in the pass's box,
      B(i,j,k) += Increment, on the line (i, j). */
  method ApplyLine(p: Pass, c: Coefficients, g: Extents, em: ElectroMagn, b: array3<real>, i: int, j: int)
    requires g.Valid() && em.Shaped(g) && b == em.B(p.Target())
    requires PassBox(p, g).i0 <= i < PassBox(p, g).i1 && PassBox(p, g).j0 <= j < PassBox(p, g).j1
    modifies b
    ensures forall x, y, z :: InArray(b, x, y, z) ==>
      b[x, y, z] == old(b[x, y, z]) + (if x == i && y == j then Contribution(p, c, g, em, x, y, z) else 0.0)
  {
    assert b != em.Ex && b != em.Ey && b != em.Ez;
    var box := PassBox(p, g);
    var k := box.k0;
    while k < box.k1
      invariant box.k0 <= k && (k <= box.k1 || k == box.k0)
      invariant forall x, y, z :: InArray(b, x, y, z) ==>
        b[x, y, z] == old(b[x, y, z]) + (if x == i && y == j && z < k then Contribution(p, c, g, em, x, y, z) else 0.0)
    {
      b[i, j, k] := b[i, j, k] + Increment(p, c, g, em, i, j, k);
      k := k + 1;
    }
  }

  /** The middle loop of a loop nest: for j in the pass's box, the line (i, j). */
  method ApplyPlane(p: Pass, c: Coefficients, g: Extents, em: ElectroMagn, b: array3<real>, i: int)
    requires g.Valid() && em.Shaped(g) && b == em.B(p.Target())
    requires PassBox(p, g).i0 <= i < PassBox(p, g).i1
    modifies b
    ensures forall x, y, z :: InArray(b, x, y, z) ==>
      b[x, y, z] == old(b[x, y, z]) + (if x == i then Contribution(p, c, g, em, x, y, z) else 0.0)
  {
    var box := PassBox(p, g);
    var j := box.j0;
    while j < box.j1
      invariant box.j0 <= j && (j <= box.j1 || j == box.j0)
      invariant forall x, y, z :: InArray(b, x, y, z) ==>
        b[x, y, z] == old(b[x, y, z]) + (if x == i && y < j then Contribution(p, c, g, em, x, y, z) else 0.0)
    {
      ApplyLine(p, c, g, em, b, i, j);
      j := j + 1;
    }
  }

  /** One loop nest of operator(): for i, for j, for k in the pass's box,
      B(i,j,k) += Increment. */
  method ApplyPass(p: Pass, c: Coefficients, g: Extents, em: ElectroMagn, b: array3<real>)
    requires g.Valid() && em.Shaped(g) && b == em.B(p.Target())
    modifies b
    ensures forall i, j, k :: InArray(b, i, j, k) ==>
      b[i, j, k] == old(b[i, j, k]) + Contribution(p, c, g, em, i, j, k)
  {
    var box := PassBox(p, g);
    var i := box.i0;
    while i < box.i1
      invariant box.i0 <= i && (i <= box.i1 || i == box.i0)
      invariant forall x, y, z :: InArray(b, x, y, z) ==>
        b[x, y, z] == old(b[x, y, z]) + (if x < i then Contribution(p, c, g, em, x, y, z) else 0.0)
    {
      ApplyPlane(p, c, g, em, b, i);
      i := i + 1;
    }
  }

  /** The solver object: coefficients fixed at construction, one call of
      Apply per time step. */
  class Solver3DLehe {
    const g: Extents
    const coef: Coefficients

    constructor (g: Extents, dx: real, dy: real, dz: real, dt: real, deltaX: real)
      requires dx > 0.0 && dy > 0.0 && dz > 0.0
      ensures this.g == g && coef == LeheCoefficients(dx, dy, dz, dt, deltaX)
    {
      this.g := g;
      coef := LeheCoefficients(dx, dy, dz, dt, deltaX);
    }

    /** The first three loop nests of operator(): the alpha/beta/delta stencil. */
    method InteriorPasses(em: ElectroMagn)
      requires g.Valid() && em.Shaped(g)
      modifies em.Bx, em.By, em.Bz
      ensures forall i, j, k :: InArray(em.Bx, i, j, k) ==>
        em.Bx[i, j, k] == old(em.Bx[i, j, k]) + Contribution(BxInterior, coef, g, em, i, j, k)
      ensures forall i, j, k :: InArray(em.By, i, j, k) ==>
        em.By[i, j, k] == old(em.By[i, j, k]) + Contribution(ByInterior, coef, g, em, i, j, k)
      ensures forall i, j, k :: InArray(em.Bz, i, j, k) ==>
        em.Bz[i, j, k] == old(em.Bz[i, j, k]) + Contribution(BzInterior, coef, g, em, i, j, k)
    {
      assert em.Bx != em.By && em.Bx != em.Bz && em.By != em.Bz;
      ApplyPass(BxInterior, coef, g, em, em.Bx);
      ApplyPass(ByInterior, coef, g, em, em.By);
      ApplyPass(BzInterior, coef, g, em, em.Bz);
    }

    /** Two of the last six loop nests of operator(): component t at the
        x-min plane, then at the x-max plane, with the two-point curl. */
    method EdgePasses(t: Component, em: ElectroMagn, b: array3<real>)
      requires g.Valid() && em.Shaped(g) && b == em.B(t)
      modifies b
      ensures forall i, j, k :: InArray(b, i, j, k) ==>
        b[i, j, k] == old(b[i, j, k]) + Contribution(XminPass(t), coef, g, em, i, j, k)
          + Contribution(XmaxPass(t), coef, g, em, i, j, k)
    {
      ApplyPass(XminPass(t), coef, g, em, b);
      ApplyPass(XmaxPass(t), coef, g, em, b);
    }

    /** operator(): the three interior passes, then the two x-edge passes of
        Bx, By and Bz. Every B point gets old value + Update; E is not written. */
    method Apply(em: ElectroMagn)
      requires g.Valid() && em.Shaped(g)
      modifies em.Bx, em.By, em.Bz
      ensures forall i, j, k :: InArray(em.Bx, i, j, k) ==>
        em.Bx[i, j, k] == old(em.Bx[i, j, k]) + Update(X, coef, g, em, i, j, k)
      ensures forall i, j, k :: InArray(em.By, i, j, k) ==>
        em.By[i, j, k] == old(em.By[i, j, k]) + Update(Y, coef, g, em, i, j, k)
      ensures forall i, j, k :: InArray(em.Bz, i, j, k) ==>
        em.Bz[i, j, k] == old(em.Bz[i, j, k]) + Update(Z, coef, g, em, i, j, k)
      ensures unchanged(em.Ex, em.Ey, em.Ez)
    {
      InteriorPasses(em);
      EdgePasses(X, em, em.Bx);
      EdgePasses(Y, em, em.By);
      EdgePasses(Z, em, em.Bz);
    }
  }
}
