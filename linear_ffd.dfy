/**
 * The point and derivative operations of the free-form deformation with a
 * linear interpolation kernel: the control-point displacement at a lattice
 * index, the forward and approximate inverse point transformation, the
 * spatial Jacobian, and the derivative of the displacement with respect to one
 * control point.
 */
module LinearFFD {
  import opened Trilinear

  /** A 3 x 3 matrix, as its entry at (row, column) for indices 0..2. */
  type Mat3 = (int, int) -> real

  /** The operations of the deformation that lie outside this model: the
      control-point displacements stored on the lattice, the continuous
      interpolator evaluated at lattice coordinates, the world-to-lattice map,
      the derivative of the interpolated displacement in lattice coordinates,
      and its conversion to world coordinates. */
  datatype Transformation = Transformation(
    controlPoint: (int, int, int) -> Point,
    interpolate: Point -> Point,
    worldToLattice: Point -> Point,
    latticeJacobian: Point -> Mat3,
    jacobianToWorld: Mat3 -> Mat3)

  // ---------------------------------------------------------------------------
  // Evaluation

  /** The displacement at lattice index (i, j, k): the stored control-point
      vector, which is what trilinear interpolation of the control points
      gives at that lattice point. */
  function EvaluateAt(t: Transformation, i: int, j: int, k: int): (d: Point)
    ensures d == Interpolated(t.controlPoint, Point(i as real, j as real, k as real))
  {
    InterpolatedAtLatticeIndex(t.controlPoint, i, j, k);
    t.controlPoint(i, j, k)
  }

  /** The displacement at a world point: the interpolator evaluated at the
      point's lattice coordinates. */
  function Displacement(t: Transformation, p: Point): Point
  {
    t.interpolate(t.worldToLattice(p))
  }

  /** A triple scaled by a real. */
  function Scale(a: real, p: Point): Point
  {
    Point(a * p.x, a * p.y, a * p.z)
  }

  /** Reference trilinear interpolation of the control points at lattice
      coordinates q: the eight control points of the cell containing q,
      weighted by the trilinear weights of q's offsets. */
  function Interpolated(cp: (int, int, int) -> Point, q: Point): Point
  {
    var u, v, w := Base(q.x), Base(q.y), Base(q.z);
    var ws := Weights(Fraction(q.x), Fraction(q.y), Fraction(q.z));
    CornerSum(cp, u, v, w, ws, 8)
  }

  /** The weighted sum of the first n corners of the cell at (u, v, w). */
  function CornerSum(cp: (int, int, int) -> Point, u: int, v: int, w: int, ws: seq<real>, n: nat): Point
    requires n <= |ws| && n <= 8
  {
    if n == 0 then Point(0.0, 0.0, 0.0)
    else Add(CornerSum(cp, u, v, w, ws, n - 1), Scale(ws[n - 1], cp(u + DX(n - 1), v + DY(n - 1), w + DZ(n - 1))))
  }

  /** When the first weight is 1 and the others are 0, the corner sum is the
      base control point. */
  lemma {:induction false} CornerSumOfBaseOnly(cp: (int, int, int) -> Point, u: int, v: int, w: int, ws: seq<real>, n: nat)
    requires 1 <= n <= |ws| && n <= 8
    requires ws[0] == 1.0 && forall m :: 1 <= m < n ==> ws[m] == 0.0
    ensures CornerSum(cp, u, v, w, ws, n) == cp(u, v, w)
  {
    if n == 1 {
      assert CornerSum(cp, u, v, w, ws, 0) == Point(0.0, 0.0, 0.0);
    } else {
      CornerSumOfBaseOnly(cp, u, v, w, ws, n - 1);
      var c := cp(u + DX(n - 1), v + DY(n - 1), w + DZ(n - 1));
      assert Scale(ws[n - 1], c) == Point(0.0, 0.0, 0.0);
    }
  }

  /** Reference interpolation at an integer lattice point gives back exactly
      the control-point vector that the lattice-index evaluation returns. */
  lemma InterpolatedAtLatticeIndex(cp: (int, int, int) -> Point, i: int, j: int, k: int)
    ensures Interpolated(cp, Point(i as real, j as real, k as real)) == cp(i, j, k)
  {
    var q := Point(i as real, j as real, k as real);
    assert Base(q.x) == i && Base(q.y) == j && Base(q.z) == k;
    assert Fraction(q.x) == 0.0 && Fraction(q.y) == 0.0 && Fraction(q.z) == 0.0;
    WeightsAtBaseCorner();
    CornerSumOfBaseOnly(cp, i, j, k, Weights(0.0, 0.0, 0.0), 8);
  }

  // ---------------------------------------------------------------------------
  // Point transformation

  /** The local transformation: the point plus the displacement at its lattice coordinates. */
  function LocalTransform(t: Transformation, p: Point): (r: Point)
    ensures Sub(r, p) == Displacement(t, p)
  {
    Add(p, Displacement(t, p))
  }

  /** The result of the approximate inverse: a point and a success flag. */
  datatype Inverted = Inverted(point: Point, ok: bool)

  /** The approximate inverse: the point minus the displacement evaluated at
      the point itself. It always reports success. */
  function LocalInverse(t: Transformation, q: Point): (r: Inverted)
    ensures r.ok
  {
    Inverted(Sub(q, Displacement(t, q)), true)
  }

  /** The inverse undoes the transformation exactly when the displacement at
      the moved point equals the displacement at the original point. */
  lemma InverseUndoesTransformIff(t: Transformation, p: Point)
    ensures LocalInverse(t, LocalTransform(t, p)).point == p
        <==> Displacement(t, LocalTransform(t, p)) == Displacement(t, p)
  {
  }

  /** Symmetrically, the transformation undoes the inverse exactly when the
      displacement at the inverted point equals the displacement at the input. */
  lemma TransformUndoesInverseIff(t: Transformation, q: Point)
    ensures LocalTransform(t, LocalInverse(t, q).point) == q
        <==> Displacement(t, LocalInverse(t, q).point) == Displacement(t, q)
  {
  }

  /** A displacement that is the same everywhere is inverted exactly. */
  lemma ConstantDisplacementRoundTrip(t: Transformation, p: Point)
    requires forall a, b :: Displacement(t, a) == Displacement(t, b)
    ensures LocalInverse(t, LocalTransform(t, p)).point == p
    ensures LocalTransform(t, LocalInverse(t, p).point) == p
  {
  }

  /** A deformation whose displacement along x equals the x lattice coordinate
      and whose lattice is the world frame. */
  function ShearX(): Transformation
  {
    Transformation(
      (i: int, j: int, k: int) => Point(i as real, 0.0, 0.0),
      (q: Point) => Point(q.x, 0.0, 0.0),
      (q: Point) => q,
      (q: Point) => (r: int, c: int) => 0.0,
      (m: Mat3) => m)
  }

  /** The round trip is not an identity in general, although the inverse
      reports success: (1, 0, 0) moves to (2, 0, 0), which maps back to the
      origin. */
  lemma InverseIsNotExact()
    ensures LocalTransform(ShearX(), Point(1.0, 0.0, 0.0)) == Point(2.0, 0.0, 0.0)
    ensures LocalInverse(ShearX(), Point(2.0, 0.0, 0.0)) == Inverted(Point(0.0, 0.0, 0.0), true)
  {
    var t := ShearX();
    assert Displacement(t, Point(1.0, 0.0, 0.0)) == Point(1.0, 0.0, 0.0);
    assert Displacement(t, Point(2.0, 0.0, 0.0)) == Point(2.0, 0.0, 0.0);
  }

  // ---------------------------------------------------------------------------
  // Spatial derivative

  /** The derivative of the displacement in world coordinates: the lattice
      derivative at the point's lattice coordinates, converted to world coordinates. */
  function DisplacementJacobian(t: Transformation, p: Point): Mat3
  {
    t.jacobianToWorld(t.latticeJacobian(t.worldToLattice(p)))
  }

  /** The Kronecker delta: the entries of the identity matrix. */
  function Delta(r: int, c: int): real
  {
    if r == c then 1.0 else 0.0
  }

  /** The Jacobian of the local transformation: the derivative of the
      displacement is computed into `jac`, then 1 is added on the diagonal,
      the derivative of the identity term of T(x) = x + d(x). Every diagonal
      entry exceeds the displacement derivative by exactly 1 and every
      off-diagonal entry equals it. */
  method LocalJacobian(t: Transformation, p: Point, jac: array2<real>)
    requires jac.Length0 == 3 && jac.Length1 == 3
    modifies jac
    ensures forall r, c :: 0 <= r < 3 && 0 <= c < 3 ==>
      jac[r, c] == DisplacementJacobian(t, p)(r, c) + Delta(r, c)
  {
    var q := t.worldToLattice(p);
    var m := t.jacobianToWorld(t.latticeJacobian(q));
    forall r, c | 0 <= r < 3 && 0 <= c < 3 {
      jac[r, c] := m(r, c);
    }
    jac[0, 0] := jac[0, 0] + 1.0;
    jac[1, 1] := jac[1, 1] + 1.0;
    jac[2, 2] := jac[2, 2] + 1.0;
  }

  // ---------------------------------------------------------------------------
  // Derivative with respect to one control point

  function Abs(x: real): real
  {
    if x < 0.0 then -x else x
  }

  /** The distance along one axis between the lattice index c and the coordinate x. */
  function Distance(c: int, x: real): real
  {
    Abs(c as real - x)
  }

  /** The one-dimensional linear kernel as a function of the distance d from
      its centre: 1 - d within one lattice unit, 0 beyond. */
  function Kernel(d: real): real
  {
    if d < 1.0 then 1.0 - d else 0.0
  }

  /** The weight for per-axis distances (dx, dy, dz): the product of the
      one-dimensional factors when every distance is below one lattice unit,
      0 otherwise. */
  function SupportWeight(dx: real, dy: real, dz: real): real
  {
    if dx < 1.0 && dy < 1.0 && dz < 1.0 then (1.0 - dx) * (1.0 - dy) * (1.0 - dz) else 0.0
  }

  /** Whether the lattice point q lies in the support of control point
      (ci, cj, ck): strictly less than one lattice unit away along every axis. */
  predicate InSupport(ci: int, cj: int, ck: int, q: Point)
  {
    Distance(ci, q.x) < 1.0 && Distance(cj, q.y) < 1.0 && Distance(ck, q.z) < 1.0
  }

  /** The weight of control point (ci, cj, ck) at lattice coordinates q. */
  function DOFWeight(ci: int, cj: int, ck: int, q: Point): real
  {
    SupportWeight(Distance(ci, q.x), Distance(cj, q.y), Distance(ck, q.z))
  }

  /** Derivative of the displacement at world point p with respect to the
      three components of control point (ci, cj, ck), written into `jac`:
      the same weight for all three components, 0 outside the support. The
      weight is the coefficient of the control point in the interpolated
      displacement when the interpolator is the trilinear one
      (`DisplacementIsDOFWeighted`). */
  method JacobianDOFs(t: Transformation, jac: array<real>, ci: int, cj: int, ck: int, p: Point)
    requires jac.Length == 3
    modifies jac
    ensures var w := DOFWeight(ci, cj, ck, t.worldToLattice(p));
      jac[..] == [w, w, w]
  {
    var q := t.worldToLattice(p);
    var dx := Distance(ci, q.x);
    var dy := Distance(cj, q.y);
    var dz := Distance(ck, q.z);
    if dx < 1.0 && dy < 1.0 && dz < 1.0 {
      var w := (1.0 - dx) * (1.0 - dy) * (1.0 - dz);
      assert w == DOFWeight(ci, cj, ck, q);
      jac[2] := w;
      jac[1] := jac[2];
      jac[0] := jac[1];
      assert jac[0] == w && jac[1] == w && jac[2] == w;
    } else {
      jac[2] := 0.0;
      jac[1] := jac[2];
      jac[0] := jac[1];
    }
    assert jac[..] == [jac[0], jac[1], jac[2]];
  }

  lemma ProductAtMost(a: real, b: real)
    requires 0.0 <= a <= 1.0 && 0.0 <= b
    ensures a * b <= b
  {
    assert (1.0 - a) * b >= 0.0;
  }

  lemma UnitProduct(a: real, b: real, c: real)
    requires 0.0 < a <= 1.0 && 0.0 < b <= 1.0 && 0.0 < c <= 1.0
    ensures 0.0 < a * b * c <= 1.0
  {
    PositiveProduct(a, b);
    PositiveProduct(a * b, c);
    ProductAtMost(a, b);
    ProductAtMost(c, a * b);
    assert c * (a * b) == a * b * c;
  }

  /** The weight is the product of any three values the per-axis kernels equal. */
  lemma SupportWeightOfKernels(dx: real, dy: real, dz: real, a: real, b: real, c: real)
    requires Kernel(dx) == a && Kernel(dy) == b && Kernel(dz) == c
    ensures SupportWeight(dx, dy, dz) == a * b * c
  {
    SupportWeightIsKernelProduct(dx, dy, dz);
  }

  /** For non-negative distances the weight lies in (0, 1] inside the
      support, is 0 outside it, and is exactly 1 at distance zero. */
  lemma SupportWeightRange(dx: real, dy: real, dz: real)
    requires dx >= 0.0 && dy >= 0.0 && dz >= 0.0
    ensures dx < 1.0 && dy < 1.0 && dz < 1.0 ==> 0.0 < SupportWeight(dx, dy, dz) <= 1.0
    ensures !(dx < 1.0 && dy < 1.0 && dz < 1.0) ==> SupportWeight(dx, dy, dz) == 0.0
    ensures dx == 0.0 && dy == 0.0 && dz == 0.0 ==> SupportWeight(dx, dy, dz) == 1.0
  {
    if dx < 1.0 && dy < 1.0 && dz < 1.0 {
      UnitProduct(1.0 - dx, 1.0 - dy, 1.0 - dz);
    }
  }

  /** The weight is the product of the one-dimensional kernels, inside the
      support and outside it. */
  lemma SupportWeightIsKernelProduct(dx: real, dy: real, dz: real)
    ensures SupportWeight(dx, dy, dz) == Kernel(dx) * Kernel(dy) * Kernel(dz)
  {
  }

  /** Inside the support the weight of a control point lies in (0, 1]; outside
      it is 0; at the control point itself it is exactly 1. */
  lemma DOFWeightRange(ci: int, cj: int, ck: int, q: Point)
    ensures InSupport(ci, cj, ck, q) ==> 0.0 < DOFWeight(ci, cj, ck, q) <= 1.0
    ensures !InSupport(ci, cj, ck, q) ==> DOFWeight(ci, cj, ck, q) == 0.0
    ensures q == Point(ci as real, cj as real, ck as real) ==> DOFWeight(ci, cj, ck, q) == 1.0
  {
    SupportWeightRange(Distance(ci, q.x), Distance(cj, q.y), Distance(ck, q.z));
  }

  /** Reflection of a lattice point about control point (ci, cj, ck) along the
      axes whose flag is set. */
  function Reflect(ci: int, cj: int, ck: int, q: Point, fx: bool, fy: bool, fz: bool): Point
  {
    Point(if fx then 2.0 * ci as real - q.x else q.x,
          if fy then 2.0 * cj as real - q.y else q.y,
          if fz then 2.0 * ck as real - q.z else q.z)
  }

  /** The weight depends only on the distance to the control point along each
      axis, so reflecting the point about the control point along any
      combination of axes leaves it unchanged. */
  lemma DOFWeightReflectionSymmetric(ci: int, cj: int, ck: int, q: Point, fx: bool, fy: bool, fz: bool)
    ensures DOFWeight(ci, cj, ck, Reflect(ci, cj, ck, q, fx, fy, fz)) == DOFWeight(ci, cj, ck, q)
  {
  }

  /** Along one axis, the kernels of the low and the high end of the cell
      containing x are the weights 1 - d and d of its offset d. */
  lemma KernelAtCellEnds(x: real, offset: int)
    requires offset == 0 || offset == 1
    ensures Kernel(Distance(Base(x) + offset, x)) == Lin(offset, Fraction(x))
  {
  }

  /** Along one axis, every other lattice index is out of reach. */
  lemma KernelOutsideCell(c: int, x: real)
    requires c != Base(x) && c != Base(x) + 1
    ensures Kernel(Distance(c, x)) == 0.0
  {
  }

  /** The weight of the control point at corner n of the cell containing q is
      the trilinear weight of that corner: the derivative matches the
      interpolation kernel. */
  lemma DOFWeightIsCornerWeight(q: Point, n: int)
    requires 0 <= n < 8
    ensures DOFWeight(Base(q.x) + DX(n), Base(q.y) + DY(n), Base(q.z) + DZ(n), q)
         == Weights(Fraction(q.x), Fraction(q.y), Fraction(q.z))[n]
  {
    var dx, dy, dz := Distance(Base(q.x) + DX(n), q.x), Distance(Base(q.y) + DY(n), q.y), Distance(Base(q.z) + DZ(n), q.z);
    var a, b, c := Lin(DX(n), Fraction(q.x)), Lin(DY(n), Fraction(q.y)), Lin(DZ(n), Fraction(q.z));
    assert Kernel(dx) == a by { KernelAtCellEnds(q.x, DX(n)); }
    assert Kernel(dy) == b by { KernelAtCellEnds(q.y, DY(n)); }
    assert Kernel(dz) == c by { KernelAtCellEnds(q.z, DZ(n)); }
    SupportWeightOfKernels(dx, dy, dz, a, b, c);
  }

  /** A control point that is not a corner of the cell containing q has weight 0. */
  lemma DOFWeightOutsideCell(ci: int, cj: int, ck: int, q: Point)
    requires (ci != Base(q.x) && ci != Base(q.x) + 1)
          || (cj != Base(q.y) && cj != Base(q.y) + 1)
          || (ck != Base(q.z) && ck != Base(q.z) + 1)
    ensures DOFWeight(ci, cj, ck, q) == 0.0
  {
  }

  /** The derivative weights of the eight control points of the cell
      containing q, in the resampler's corner order. */
  function CellDOFWeights(q: Point): (ds: seq<real>)
    ensures |ds| == 8
  {
    seq(8, n requires 0 <= n < 8 => DOFWeight(Base(q.x) + DX(n), Base(q.y) + DY(n), Base(q.z) + DZ(n), q))
  }

  /** The derivative weights of the cell's control points are its trilinear weights. */
  lemma CellDOFWeightsAreWeights(q: Point)
    ensures CellDOFWeights(q) == Weights(Fraction(q.x), Fraction(q.y), Fraction(q.z))
  {
    var ds, ws := CellDOFWeights(q), Weights(Fraction(q.x), Fraction(q.y), Fraction(q.z));
    forall n | 0 <= n < 8
      ensures ds[n] == ws[n]
    {
      DOFWeightIsCornerWeight(q, n);
    }
  }

  /** The interpolator of t is trilinear interpolation of its control points. */
  ghost predicate LinearlyInterpolated(t: Transformation)
  {
    forall q :: t.interpolate(q) == Interpolated(t.controlPoint, q)
  }

  /** With the trilinear interpolator, the displacement at world point p is the
      sum over the eight control points of the cell around p's lattice
      coordinates of the derivative weight times the control-point vector. */
  lemma DisplacementIsDOFWeighted(t: Transformation, p: Point)
    requires LinearlyInterpolated(t)
    ensures var q := t.worldToLattice(p);
      Displacement(t, p) == CornerSum(t.controlPoint, Base(q.x), Base(q.y), Base(q.z), CellDOFWeights(q), 8)
  {
    InterpolatedIsDOFWeighted(t.controlPoint, t.worldToLattice(p));
  }

  /** The weights of the eight control points of the cell containing q sum to 1. */
  lemma DOFWeightsSumToOne(q: Point)
    ensures Sum(CellDOFWeights(q)) == 1.0
  {
    CellDOFWeightsAreWeights(q);
    WeightsSumToOne(Fraction(q.x), Fraction(q.y), Fraction(q.z));
  }

  /** The interpolated displacement at q is the sum over the eight control
      points of its cell of the derivative weight times the control-point
      vector: the weight is the coefficient of each control point. */
  lemma InterpolatedIsDOFWeighted(cp: (int, int, int) -> Point, q: Point)
    ensures Interpolated(cp, q) == CornerSum(cp, Base(q.x), Base(q.y), Base(q.z), CellDOFWeights(q), 8)
  {
    CellDOFWeightsAreWeights(q);
  }

  // ---------------------------------------------------------------------------
  // The derivative as written

  /** The outcome of a sequence of stores into an array: its final contents,
      or the index of the first store that falls outside it. */
  datatype Store = Stored(contents: seq<real>) | OutOfBoundsWrite(index: int)

  function StoreAt(s: Store, i: int, x: real): Store
  {
    match s
    case OutOfBoundsWrite(_) => s
    case Stored(a) => if 0 <= i < |a| then Stored(a[i := x]) else OutOfBoundsWrite(i)
  }

  /** The derivative as the source writes it: inside the support the chained
      assignment stores into indices 2, 1, 0; outside it stores into indices
      3, 1, 0, the first of which lies beyond a three-element array. */
  function JacobianDOFsAsWritten(jac: seq<real>, ci: int, cj: int, ck: int, q: Point): (r: Store)
    ensures var first := if InSupport(ci, cj, ck, q) then 2 else 3;
      |jac| <= first ==> r == OutOfBoundsWrite(first)
    ensures var first := if InSupport(ci, cj, ck, q) then 2 else 3;
      var w := DOFWeight(ci, cj, ck, q);
      |jac| > first ==>
        r.Stored? && |r.contents| == |jac| &&
        r.contents[0] == w && r.contents[1] == w && r.contents[first] == w &&
        forall m :: 0 <= m < |jac| && m != 0 && m != 1 && m != first ==> r.contents[m] == jac[m]
  {
    var dx, dy, dz := Distance(ci, q.x), Distance(cj, q.y), Distance(ck, q.z);
    if dx < 1.0 && dy < 1.0 && dz < 1.0 then
      var w := (1.0 - dx) * (1.0 - dy) * (1.0 - dz);
      StoreAt(StoreAt(StoreAt(Stored(jac), 2, w), 1, w), 0, w)
    else
      StoreAt(StoreAt(StoreAt(Stored(jac), 3, 0.0), 1, 0.0), 0, 0.0)
  }

  /** On a three-element array the code as written agrees with the corrected
      derivative inside the support, and outside it fails with a store to
      index 3 instead of zeroing the third component. */
  lemma JacobianDOFsAsWrittenOverruns(jac: seq<real>, ci: int, cj: int, ck: int, q: Point)
    requires |jac| == 3
    ensures InSupport(ci, cj, ck, q) ==>
      var w := DOFWeight(ci, cj, ck, q);
      JacobianDOFsAsWritten(jac, ci, cj, ck, q) == Stored([w, w, w])
    ensures !InSupport(ci, cj, ck, q) ==>
      JacobianDOFsAsWritten(jac, ci, cj, ck, q) == OutOfBoundsWrite(3)
  {
  }

  /** A concrete case: control point (0, 0, 0) and lattice point (2, 0, 0),
      two units away along x. */
  lemma JacobianDOFsOverrunExample()
    ensures !InSupport(0, 0, 0, Point(2.0, 0.0, 0.0))
    ensures JacobianDOFsAsWritten([7.0, 7.0, 7.0], 0, 0, 0, Point(2.0, 0.0, 0.0)) == OutOfBoundsWrite(3)
  {
  }
}
