/**
 * The trilinear kernel shared by the padding-aware resampler and the linear
 * free-form deformation: splitting a coordinate into an integer base index and
 * a fractional offset, and the eight corner weights of a unit cell.
 */
module Trilinear {

  /** A triple of reals: a point in world, image or lattice coordinates, or a displacement. */
  datatype Point = Point(x: real, y: real, z: real)

  /** Component-wise sum and difference of two triples. */
  function Add(p: Point, q: Point): Point
  {
    Point(p.x + q.x, p.y + q.y, p.z + q.z)
  }

  function Sub(p: Point, q: Point): Point
  {
    Point(p.x - q.x, p.y - q.y, p.z - q.z)
  }

  /** The base index of a coordinate, `(int)floor(x)`. */
  function Base(x: real): int
  {
    x.Floor
  }

  /** The offset of a coordinate above its base index. */
  function Fraction(x: real): (f: real)
    ensures 0.0 <= f < 1.0
    ensures Base(x) as real + f == x
  {
    x - Base(x) as real
  }

  /** Corner n (0 <= n < 8) of a cell lies at offset (DX(n), DY(n), DZ(n)) from
      the base corner; this is the order in which the resampler visits the
      corners: the z offset varies fastest, then y, then x. */
  function DX(n: int): int { if n < 4 then 0 else 1 }
  function DY(n: int): int { if n == 2 || n == 3 || n == 6 || n == 7 then 1 else 0 }
  function DZ(n: int): int { if n == 1 || n == 3 || n == 5 || n == 7 then 1 else 0 }

  /** The one-dimensional linear kernel: weight `1 - d` for the low end of an
      axis (offset 0) and `d` for the high end (offset 1). */
  function Lin(offset: int, d: real): real
  {
    if offset == 0 then 1.0 - d else d
  }

  /** The eight trilinear weights for the fractional offsets (dx, dy, dz): the
      weight of corner n is the tensor product of the one-dimensional kernels
      along the three axes at that corner. */
  function Weights(dx: real, dy: real, dz: real): (ws: seq<real>)
    ensures |ws| == 8
  {
    seq(8, n requires 0 <= n < 8 => Lin(DX(n), dx) * Lin(DY(n), dy) * Lin(DZ(n), dz))
  }

  /** The weights w1..w8 exactly as the resampler writes them out are the
      tensor-product weights. */
  lemma WeightsAsWritten(dx: real, dy: real, dz: real)
    ensures Weights(dx, dy, dz) ==
      [ (1.0 - dx) * (1.0 - dy) * (1.0 - dz),
        (1.0 - dx) * (1.0 - dy) * dz,
        (1.0 - dx) * dy * (1.0 - dz),
        (1.0 - dx) * dy * dz,
        dx * (1.0 - dy) * (1.0 - dz),
        dx * (1.0 - dy) * dz,
        dx * dy * (1.0 - dz),
        dx * dy * dz ]
  {
    var ws := Weights(dx, dy, dz);
    assert ws[0] == (1.0 - dx) * (1.0 - dy) * (1.0 - dz);
    assert ws[1] == (1.0 - dx) * (1.0 - dy) * dz;
    assert ws[2] == (1.0 - dx) * dy * (1.0 - dz);
    assert ws[3] == (1.0 - dx) * dy * dz;
    assert ws[4] == dx * (1.0 - dy) * (1.0 - dz);
    assert ws[5] == dx * (1.0 - dy) * dz;
    assert ws[6] == dx * dy * (1.0 - dz);
    assert ws[7] == dx * dy * dz;
  }

  /** Sum of a sequence of reals. */
  function Sum(s: seq<real>): real
  {
    if s == [] then 0.0 else Sum(s[..|s| - 1]) + s[|s| - 1]
  }

  lemma SumStep(s: seq<real>, k: nat)
    requires k < |s|
    ensures Sum(s[..k + 1]) == Sum(s[..k]) + s[k]
  {
    assert s[..k + 1][..k] == s[..k];
  }

  lemma SumOfEight(s: seq<real>)
    requires |s| == 8
    ensures Sum(s) == s[0] + s[1] + s[2] + s[3] + s[4] + s[5] + s[6] + s[7]
  {
    assert s[..0] == [];
    SumStep(s, 0); SumStep(s, 1); SumStep(s, 2); SumStep(s, 3);
    SumStep(s, 4); SumStep(s, 5); SumStep(s, 6); SumStep(s, 7);
    assert s[..8] == s;
  }

  lemma PositiveProduct(a: real, b: real)
    requires a > 0.0 && b > 0.0
    ensures a * b > 0.0
  {
  }

  lemma ProductNonnegative(a: real, b: real, c: real)
    requires a >= 0.0 && b >= 0.0 && c >= 0.0
    ensures a * b * c >= 0.0
  {
    assert a * b >= 0.0;
  }

  /** For offsets in the unit cube every weight is non-negative. */
  lemma WeightsNonnegative(dx: real, dy: real, dz: real)
    requires 0.0 <= dx <= 1.0 && 0.0 <= dy <= 1.0 && 0.0 <= dz <= 1.0
    ensures forall n :: 0 <= n < 8 ==> Weights(dx, dy, dz)[n] >= 0.0
  {
    forall n | 0 <= n < 8
      ensures Weights(dx, dy, dz)[n] >= 0.0
    {
      ProductNonnegative(Lin(DX(n), dx), Lin(DY(n), dy), Lin(DZ(n), dz));
    }
  }

  /** Whatever the offsets, the eight weights sum to exactly 1: a partition of unity. */
  lemma {:induction false} WeightsSumToOne(dx: real, dy: real, dz: real)
    ensures Sum(Weights(dx, dy, dz)) == 1.0
  {
    var ws := Weights(dx, dy, dz);
    SumOfEight(ws);
    var a, b := (1.0 - dx) * (1.0 - dy), (1.0 - dx) * dy;
    var c, d := dx * (1.0 - dy), dx * dy;
    assert ws[0] + ws[1] == a;
    assert ws[2] + ws[3] == b;
    assert ws[4] + ws[5] == c;
    assert ws[6] + ws[7] == d;
    assert a + b == 1.0 - dx;
    assert c + d == dx;
  }

  /** The base-corner weight w1 is strictly positive for offsets in [0,1). */
  lemma BaseWeightPositive(dx: real, dy: real, dz: real)
    requires 0.0 <= dx < 1.0 && 0.0 <= dy < 1.0 && 0.0 <= dz < 1.0
    ensures Weights(dx, dy, dz)[0] > 0.0
  {
    PositiveProduct(1.0 - dx, 1.0 - dy);
    PositiveProduct((1.0 - dx) * (1.0 - dy), 1.0 - dz);
  }

  /** At offset zero along every axis all weight falls on the base corner. */
  lemma WeightsAtBaseCorner()
    ensures Weights(0.0, 0.0, 0.0) == [1.0, 0.0, 0.0, 0.0, 0.0, 0.0, 0.0, 0.0]
  {
    var ws := Weights(0.0, 0.0, 0.0);
    assert forall n :: 1 <= n < 8 ==> ws[n] == 0.0;
  }

  /** At the centre of a cell every corner weighs one eighth. */
  lemma WeightsAtCentre()
    ensures Weights(0.5, 0.5, 0.5) == [0.125, 0.125, 0.125, 0.125, 0.125, 0.125, 0.125, 0.125]
  {
    var ws := Weights(0.5, 0.5, 0.5);
    assert forall n :: 0 <= n < 8 ==> ws[n] == 0.125;
  }
}
