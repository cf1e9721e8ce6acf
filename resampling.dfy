/**
 * Padding-aware trilinear resampling (irtkResamplingWithPadding::Run).
 *
 * Every output voxel (i, j, k) of frame l is mapped to a point of the source
 * image; the eight source voxels around that point are interpolated with the
 * trilinear weights, leaving out corners that lie outside the source and
 * corners that hold the padding value, and the result is either the
 * renormalised average of the remaining corners or the padding value.
 */
module Resampling {
  import opened Trilinear

  /** The source image as the resampler sees it: its extent along x, y, z and t
      and its voxel values. Voxel values are only read at spatially in-bounds indices. */
  datatype Image = Image(nx: int, ny: int, nz: int, nt: int, voxel: (int, int, int, int) -> real)

  /** The spatial bounds test applied to every corner (the frame index is not tested). */
  predicate InBounds(img: Image, a: int, b: int, c: int)
  {
    0 <= a < img.nx && 0 <= b < img.ny && 0 <= c < img.nz
  }

  /** What a corner contributes: nothing because it lies outside the source,
      nothing because it holds the padding value, or its value. */
  datatype CornerState = Outside | Padding | Inside(value: real)

  function State(img: Image, l: int, pv: real, a: int, b: int, c: int): CornerState
  {
    if !InBounds(img, a, b, c) then Outside
    else if img.voxel(a, b, c, l) == pv then Padding
    else Inside(img.voxel(a, b, c, l))
  }

  /** The states of the eight corners of the cell with base corner (u, v, w), in visiting order. */
  function CornerStates(img: Image, l: int, pv: real, u: int, v: int, w: int): (cs: seq<CornerState>)
    ensures |cs| == 8
  {
    seq(8, n requires 0 <= n < 8 => State(img, l, pv, u + DX(n), v + DY(n), w + DZ(n)))
  }

  // What one corner adds to the padding count, the weight total and the weighted sum.

  function PadTerm(s: CornerState): nat
  {
    if s.Padding? then 1 else 0
  }

  function WeightTerm(s: CornerState, wt: real): real
  {
    if s.Inside? then wt else 0.0
  }

  function ValueTerm(s: CornerState, wt: real): real
  {
    if s.Inside? then s.value * wt else 0.0
  }

  /** Number of corners that are in bounds and hold the padding value. */
  function PaddingCount(cs: seq<CornerState>): (c: nat)
    ensures c <= |cs|
  {
    if cs == [] then 0 else PaddingCount(cs[..|cs| - 1]) + PadTerm(cs[|cs| - 1])
  }

  /** Total weight of the in-bounds, non-padding corners. */
  function ValidWeight(cs: seq<CornerState>, ws: seq<real>): real
    requires |cs| == |ws|
  {
    if cs == [] then 0.0
    else ValidWeight(cs[..|cs| - 1], ws[..|ws| - 1]) + WeightTerm(cs[|cs| - 1], ws[|ws| - 1])
  }

  /** Weighted sum of the values of the in-bounds, non-padding corners. */
  function ValidSum(cs: seq<CornerState>, ws: seq<real>): real
    requires |cs| == |ws|
  {
    if cs == [] then 0.0
    else ValidSum(cs[..|cs| - 1], ws[..|ws| - 1]) + ValueTerm(cs[|cs| - 1], ws[|ws| - 1])
  }

  /** The validity policy: the renormalised average when fewer than four corners
      hold the padding value and the valid corners carry some weight, otherwise
      the padding value. */
  function Decide(pad: int, val: real, sum: real, pv: real): (r: real)
    ensures pad < 4 && sum > 0.0 ==> r * sum == val
    ensures !(pad < 4 && sum > 0.0) ==> r == pv
  {
    if pad < 4 then (if sum > 0.0 then val / sum else pv) else pv
  }

  /** The corner states and the weights of the cell around the source point p. */
  function CellStates(img: Image, l: int, pv: real, p: Point): (cs: seq<CornerState>)
    ensures |cs| == 8
  {
    CornerStates(img, l, pv, Base(p.x), Base(p.y), Base(p.z))
  }

  function CellWeights(p: Point): (ws: seq<real>)
    ensures |ws| == 8
  {
    Weights(Fraction(p.x), Fraction(p.y), Fraction(p.z))
  }

  /** The value the resampler writes for the source point p in frame l. */
  function ResampledValue(img: Image, l: int, pv: real, p: Point): real
  {
    var cs, ws := CellStates(img, l, pv, p), CellWeights(p);
    Decide(PaddingCount(cs), ValidSum(cs, ws), ValidWeight(cs, ws), pv)
  }

  // ---------------------------------------------------------------------------
  // The per-voxel computation, step by step

  /** One corner block: an out-of-bounds corner decrements the counter exactly
      as a valid corner does; only an in-bounds padding corner leaves the
      counter, the weight total and the weighted sum unchanged; a valid corner
      adds its weight and its weighted value. */
  method VisitCorner(img: Image, l: int, pv: real, a: int, b: int, c: int, wt: real,
                     val: real, sum: real, pad: int)
    returns (val': real, sum': real, pad': int)
    ensures var s := State(img, l, pv, a, b, c);
      && pad' == pad - 1 + PadTerm(s)
      && sum' == sum + WeightTerm(s, wt)
      && val' == val + ValueTerm(s, wt)
  {
    val', sum', pad' := val, sum, pad;
    if 0 <= a < img.nx && 0 <= b < img.ny && 0 <= c < img.nz {
      if img.voxel(a, b, c, l) != pv {
        pad' := pad' - 1;
        val' := val' + img.voxel(a, b, c, l) * wt;
        sum' := sum' + wt;
      }
    } else {
      pad' := pad' - 1;
    }
  }

  /** The eight corner blocks, in the resampler's order, starting from
      val = 0, pad = 8, sum = 0. */
  method AccumulateCorners(img: Image, l: int, pv: real, u: int, v: int, w: int, ws: seq<real>)
    returns (val: real, sum: real, pad: int)
    requires |ws| == 8
    ensures var cs := CornerStates(img, l, pv, u, v, w);
      && pad == PaddingCount(cs)
      && sum == ValidWeight(cs, ws)
      && val == ValidSum(cs, ws)
  {
    val, pad, sum := 0.0, 8, 0.0;
    val, sum, pad := VisitCorner(img, l, pv, u, v, w, ws[0], val, sum, pad);
    val, sum, pad := VisitCorner(img, l, pv, u, v, w + 1, ws[1], val, sum, pad);
    val, sum, pad := VisitCorner(img, l, pv, u, v + 1, w, ws[2], val, sum, pad);
    val, sum, pad := VisitCorner(img, l, pv, u, v + 1, w + 1, ws[3], val, sum, pad);
    val, sum, pad := VisitCorner(img, l, pv, u + 1, v, w, ws[4], val, sum, pad);
    val, sum, pad := VisitCorner(img, l, pv, u + 1, v, w + 1, ws[5], val, sum, pad);
    val, sum, pad := VisitCorner(img, l, pv, u + 1, v + 1, w, ws[6], val, sum, pad);
    val, sum, pad := VisitCorner(img, l, pv, u + 1, v + 1, w + 1, ws[7], val, sum, pad);
    var cs := CornerStates(img, l, pv, u, v, w);
    UnrollPadding(cs);
    UnrollWeight(cs, ws);
    UnrollSum(cs, ws);
  }

  /** The whole per-voxel rule for the source point p = (x, y, z) of frame l. */
  method ResampleVoxel(img: Image, l: int, pv: real, p: Point) returns (r: real)
    ensures r == ResampledValue(img, l, pv, p)
  {
    var u, v, w := p.x.Floor, p.y.Floor, p.z.Floor;
    var dx, dy, dz := p.x - u as real, p.y - v as real, p.z - w as real;
    var w1 := (1.0 - dx) * (1.0 - dy) * (1.0 - dz);
    var w2 := (1.0 - dx) * (1.0 - dy) * dz;
    var w3 := (1.0 - dx) * dy * (1.0 - dz);
    var w4 := (1.0 - dx) * dy * dz;
    var w5 := dx * (1.0 - dy) * (1.0 - dz);
    var w6 := dx * (1.0 - dy) * dz;
    var w7 := dx * dy * (1.0 - dz);
    var w8 := dx * dy * dz;
    WeightsAsWritten(dx, dy, dz);
    var val, sum, pad := AccumulateCorners(img, l, pv, u, v, w, [w1, w2, w3, w4, w5, w6, w7, w8]);
    if pad < 4 {
      if sum > 0.0 {
        r := val / sum;
      } else {
        r := pv;
      }
    } else {
      r := pv;
    }
  }

  /** The resampling pass: every voxel of every frame of the output is written
      with the value determined by its own indices and the source image alone.
      `toSource` is the output's image-to-world map followed by the source's
      world-to-image map. Frames are processed one after the other. */
  method Run(img: Image, pv: real, toSource: (int, int, int) -> Point, out: array4<real>)
    modifies out
    ensures forall i, j, k, l ::
      0 <= i < out.Length0 && 0 <= j < out.Length1 && 0 <= k < out.Length2 && 0 <= l < out.Length3 ==>
        out[i, j, k, l] == ResampledValue(img, l, pv, toSource(i, j, k))
  {
    var l := 0;
    while l < out.Length3
      invariant 0 <= l <= out.Length3
      invariant forall i, j, k, l' ::
        0 <= i < out.Length0 && 0 <= j < out.Length1 && 0 <= k < out.Length2 && 0 <= l' < l ==>
          out[i, j, k, l'] == ResampledValue(img, l', pv, toSource(i, j, k))
    {
      ResampleSlab(img, pv, toSource, out, l, 0, out.Length2);
      l := l + 1;
    }
  }

  /** Slices kBegin..kEnd-1 of frame l: the unit of work the multi-threaded
      path hands to one worker. Nothing outside these slices changes. */
  method ResampleSlab(img: Image, pv: real, toSource: (int, int, int) -> Point,
                      out: array4<real>, l: int, kBegin: int, kEnd: int)
    requires 0 <= l < out.Length3 && 0 <= kBegin <= kEnd <= out.Length2
    modifies out
    ensures forall i, j, k :: 0 <= i < out.Length0 && 0 <= j < out.Length1 && kBegin <= k < kEnd ==>
      out[i, j, k, l] == ResampledValue(img, l, pv, toSource(i, j, k))
    ensures forall i, j, k, l' ::
      0 <= i < out.Length0 && 0 <= j < out.Length1 && 0 <= k < out.Length2 && 0 <= l' < out.Length3 &&
      (l' != l || k < kBegin || kEnd <= k) ==>
        out[i, j, k, l'] == old(out[i, j, k, l'])
  {
    var k := kBegin;
    while k < kEnd
      invariant kBegin <= k <= kEnd
      invariant forall i, j, k' :: 0 <= i < out.Length0 && 0 <= j < out.Length1 && kBegin <= k' < k ==>
        out[i, j, k', l] == ResampledValue(img, l, pv, toSource(i, j, k'))
      invariant forall i, j, k', l' ::
        0 <= i < out.Length0 && 0 <= j < out.Length1 && 0 <= k' < out.Length2 && 0 <= l' < out.Length3 &&
        (l' != l || k' < kBegin || k <= k') ==>
          out[i, j, k', l'] == old(out[i, j, k', l'])
    {
      ResampleSlice(img, pv, toSource, out, k, l);
      k := k + 1;
    }
  }

  /** All rows of slice k of frame l. Nothing outside the slice changes. */
  method ResampleSlice(img: Image, pv: real, toSource: (int, int, int) -> Point,
                       out: array4<real>, k: int, l: int)
    requires 0 <= k < out.Length2 && 0 <= l < out.Length3
    modifies out
    ensures forall i, j :: 0 <= i < out.Length0 && 0 <= j < out.Length1 ==>
      out[i, j, k, l] == ResampledValue(img, l, pv, toSource(i, j, k))
    ensures forall i, j, k', l' ::
      0 <= i < out.Length0 && 0 <= j < out.Length1 && 0 <= k' < out.Length2 && 0 <= l' < out.Length3 &&
      (k' != k || l' != l) ==>
        out[i, j, k', l'] == old(out[i, j, k', l'])
  {
    var j := 0;
    while j < out.Length1
      invariant 0 <= j <= out.Length1
      invariant forall i, j' :: 0 <= i < out.Length0 && 0 <= j' < j ==>
        out[i, j', k, l] == ResampledValue(img, l, pv, toSource(i, j', k))
      invariant forall i, j', k', l' ::
        0 <= i < out.Length0 && 0 <= j' < out.Length1 && 0 <= k' < out.Length2 && 0 <= l' < out.Length3 &&
        (k' != k || l' != l || j <= j') ==>
          out[i, j', k', l'] == old(out[i, j', k', l'])
    {
      ResampleRow(img, pv, toSource, out, j, k, l);
      j := j + 1;
    }
  }

  /** Row j of slice k of frame l, voxel by voxel. Nothing outside the row changes. */
  method ResampleRow(img: Image, pv: real, toSource: (int, int, int) -> Point,
                     out: array4<real>, j: int, k: int, l: int)
    requires 0 <= j < out.Length1 && 0 <= k < out.Length2 && 0 <= l < out.Length3
    modifies out
    ensures forall i :: 0 <= i < out.Length0 ==> out[i, j, k, l] == ResampledValue(img, l, pv, toSource(i, j, k))
    ensures forall i, j', k', l' ::
      0 <= i < out.Length0 && 0 <= j' < out.Length1 && 0 <= k' < out.Length2 && 0 <= l' < out.Length3 &&
      (j' != j || k' != k || l' != l) ==>
        out[i, j', k', l'] == old(out[i, j', k', l'])
  {
    var i := 0;
    while i < out.Length0
      invariant 0 <= i <= out.Length0
      invariant forall i' :: 0 <= i' < i ==> out[i', j, k, l] == ResampledValue(img, l, pv, toSource(i', j, k))
      invariant forall i', j', k', l' ::
        0 <= i' < out.Length0 && 0 <= j' < out.Length1 && 0 <= k' < out.Length2 && 0 <= l' < out.Length3 &&
        (j' != j || k' != k || l' != l || i <= i') ==>
          out[i', j', k', l'] == old(out[i', j', k', l'])
    {
      var r := ResampleVoxel(img, l, pv, toSource(i, j, k));
      out[i, j, k, l] := r;
      i := i + 1;
    }
  }

  // ---------------------------------------------------------------------------
  // Unfolding the reference sums

  lemma PadPrefixStep(cs: seq<CornerState>, k: nat)
    requires k < |cs|
    ensures PaddingCount(cs[..k + 1]) == PaddingCount(cs[..k]) + PadTerm(cs[k])
  {
    assert cs[..k + 1][..k] == cs[..k];
  }

  lemma WeightPrefixStep(cs: seq<CornerState>, ws: seq<real>, k: nat)
    requires |cs| == |ws| && k < |cs|
    ensures ValidWeight(cs[..k + 1], ws[..k + 1]) == ValidWeight(cs[..k], ws[..k]) + WeightTerm(cs[k], ws[k])
  {
    assert cs[..k + 1][..k] == cs[..k];
    assert ws[..k + 1][..k] == ws[..k];
  }

  lemma SumPrefixStep(cs: seq<CornerState>, ws: seq<real>, k: nat)
    requires |cs| == |ws| && k < |cs|
    ensures ValidSum(cs[..k + 1], ws[..k + 1]) == ValidSum(cs[..k], ws[..k]) + ValueTerm(cs[k], ws[k])
  {
    assert cs[..k + 1][..k] == cs[..k];
    assert ws[..k + 1][..k] == ws[..k];
  }

  /** The padding counter of a cell as the eight corner terms written out. */
  lemma UnrollPadding(cs: seq<CornerState>)
    requires |cs| == 8
    ensures PaddingCount(cs) == PadTerm(cs[0]) + PadTerm(cs[1]) + PadTerm(cs[2]) + PadTerm(cs[3])
                              + PadTerm(cs[4]) + PadTerm(cs[5]) + PadTerm(cs[6]) + PadTerm(cs[7])
  {
    assert cs[..0] == [];
    PadPrefixStep(cs, 0); PadPrefixStep(cs, 1); PadPrefixStep(cs, 2); PadPrefixStep(cs, 3);
    PadPrefixStep(cs, 4); PadPrefixStep(cs, 5); PadPrefixStep(cs, 6); PadPrefixStep(cs, 7);
    assert cs[..8] == cs;
  }

  /** The weight total of a cell as the eight corner terms written out. */
  lemma UnrollWeight(cs: seq<CornerState>, ws: seq<real>)
    requires |cs| == |ws| == 8
    ensures ValidWeight(cs, ws) == WeightTerm(cs[0], ws[0]) + WeightTerm(cs[1], ws[1])
                                 + WeightTerm(cs[2], ws[2]) + WeightTerm(cs[3], ws[3])
                                 + WeightTerm(cs[4], ws[4]) + WeightTerm(cs[5], ws[5])
                                 + WeightTerm(cs[6], ws[6]) + WeightTerm(cs[7], ws[7])
  {
    assert cs[..0] == [] && ws[..0] == [];
    WeightPrefixStep(cs, ws, 0); WeightPrefixStep(cs, ws, 1); WeightPrefixStep(cs, ws, 2); WeightPrefixStep(cs, ws, 3);
    WeightPrefixStep(cs, ws, 4); WeightPrefixStep(cs, ws, 5); WeightPrefixStep(cs, ws, 6); WeightPrefixStep(cs, ws, 7);
    assert cs[..8] == cs && ws[..8] == ws;
  }

  /** The weighted sum of a cell as the eight corner terms written out. */
  lemma UnrollSum(cs: seq<CornerState>, ws: seq<real>)
    requires |cs| == |ws| == 8
    ensures ValidSum(cs, ws) == ValueTerm(cs[0], ws[0]) + ValueTerm(cs[1], ws[1])
                              + ValueTerm(cs[2], ws[2]) + ValueTerm(cs[3], ws[3])
                              + ValueTerm(cs[4], ws[4]) + ValueTerm(cs[5], ws[5])
                              + ValueTerm(cs[6], ws[6]) + ValueTerm(cs[7], ws[7])
  {
    assert cs[..0] == [] && ws[..0] == [];
    SumPrefixStep(cs, ws, 0); SumPrefixStep(cs, ws, 1); SumPrefixStep(cs, ws, 2); SumPrefixStep(cs, ws, 3);
    SumPrefixStep(cs, ws, 4); SumPrefixStep(cs, ws, 5); SumPrefixStep(cs, ws, 6); SumPrefixStep(cs, ws, 7);
    assert cs[..8] == cs && ws[..8] == ws;
  }

  // ---------------------------------------------------------------------------
  // What the padding counter, the weight total and the weighted sum mean

  /** The padding counter equals the number of corners whose state is Padding. */
  lemma {:induction false} PaddingCountIsCardinality(cs: seq<CornerState>)
    ensures PaddingCount(cs) == |set n | 0 <= n < |cs| && cs[n].Padding?|
  {
    if cs != [] {
      var k := |cs| - 1;
      PaddingCountIsCardinality(cs[..k]);
      var before := set n | 0 <= n < k && cs[..k][n].Padding?;
      var after := set n | 0 <= n < |cs| && cs[n].Padding?;
      assert before == set n | 0 <= n < k && cs[n].Padding?;
      if cs[k].Padding? {
        assert after == before + {k};
      } else {
        assert after == before;
      }
    }
  }

  /** After the eight corner blocks the counter that started at 8 holds exactly
      the number of corners that lie inside the source AND hold the padding
      value: out-of-bounds corners are not counted. */
  lemma PadCounterCountsInBoundsPaddingCorners(img: Image, l: int, pv: real, u: int, v: int, w: int)
    ensures PaddingCount(CornerStates(img, l, pv, u, v, w)) ==
      |set n | 0 <= n < 8 && InBounds(img, u + DX(n), v + DY(n), w + DZ(n))
                          && img.voxel(u + DX(n), v + DY(n), w + DZ(n), l) == pv|
  {
    var cs := CornerStates(img, l, pv, u, v, w);
    PaddingCountIsCardinality(cs);
    assert (set n | 0 <= n < |cs| && cs[n].Padding?) ==
      set n | 0 <= n < 8 && InBounds(img, u + DX(n), v + DY(n), w + DZ(n))
                         && img.voxel(u + DX(n), v + DY(n), w + DZ(n), l) == pv;
  }

  /** With non-negative weights the weight total of the valid corners is
      positive exactly when some valid corner carries a positive weight. */
  lemma {:induction false} ValidWeightPositiveIff(cs: seq<CornerState>, ws: seq<real>)
    requires |cs| == |ws|
    requires forall n :: 0 <= n < |ws| ==> ws[n] >= 0.0
    ensures ValidWeight(cs, ws) >= 0.0
    ensures ValidWeight(cs, ws) > 0.0 <==> exists n :: 0 <= n < |cs| && cs[n].Inside? && ws[n] > 0.0
  {
    if cs != [] {
      var k := |cs| - 1;
      ValidWeightPositiveIff(cs[..k], ws[..k]);
      if exists n :: 0 <= n < k && cs[..k][n].Inside? && ws[..k][n] > 0.0 {
        var n :| 0 <= n < k && cs[..k][n].Inside? && ws[..k][n] > 0.0;
        assert cs[n].Inside? && ws[n] > 0.0;
      }
      if exists n :: 0 <= n < |cs| && cs[n].Inside? && ws[n] > 0.0 {
        var n :| 0 <= n < |cs| && cs[n].Inside? && ws[n] > 0.0;
        if n < k {
          assert cs[..k][n].Inside? && ws[..k][n] > 0.0;
        }
      }
    }
  }

  /** Every weight is non-negative. */
  predicate Nonnegative(ws: seq<real>)
  {
    forall n :: 0 <= n < |ws| ==> ws[n] >= 0.0
  }

  /** Every valid corner value is at least lo. */
  predicate ValuesAtLeast(cs: seq<CornerState>, lo: real)
  {
    forall n :: 0 <= n < |cs| && cs[n].Inside? ==> lo <= cs[n].value
  }

  /** Every valid corner value is at most hi. */
  predicate ValuesAtMost(cs: seq<CornerState>, hi: real)
  {
    forall n :: 0 <= n < |cs| && cs[n].Inside? ==> cs[n].value <= hi
  }

  /** The weighted sum the valid corners would have if each held the value c. */
  function ConstantSum(c: real, cs: seq<CornerState>, ws: seq<real>): real
    requires |cs| == |ws|
  {
    if cs == [] then 0.0
    else ConstantSum(c, cs[..|cs| - 1], ws[..|ws| - 1]) + (if cs[|cs| - 1].Inside? then c * ws[|ws| - 1] else 0.0)
  }

  lemma {:induction false} ConstantSumIsScaledWeight(c: real, cs: seq<CornerState>, ws: seq<real>)
    requires |cs| == |ws|
    ensures ConstantSum(c, cs, ws) == c * ValidWeight(cs, ws)
  {
    if cs != [] {
      var k := |cs| - 1;
      ConstantSumIsScaledWeight(c, cs[..k], ws[..k]);
      var pw, t := ValidWeight(cs[..k], ws[..k]), WeightTerm(cs[k], ws[k]);
      assert ValidWeight(cs, ws) == pw + t;
      assert c * (pw + t) == c * pw + c * t;
    }
  }

  /** With non-negative weights, the weighted sum of the valid corners is at
      least lo times their weight total when every valid value is at least lo. */
  lemma {:induction false} ValidSumAtLeast(cs: seq<CornerState>, ws: seq<real>, lo: real)
    requires |cs| == |ws| && Nonnegative(ws) && ValuesAtLeast(cs, lo)
    ensures ConstantSum(lo, cs, ws) <= ValidSum(cs, ws)
  {
    if cs != [] {
      var k := |cs| - 1;
      assert Nonnegative(ws[..k]);
      assert ValuesAtLeast(cs[..k], lo);
      ValidSumAtLeast(cs[..k], ws[..k], lo);
      if cs[k].Inside? {
        assert lo * ws[k] <= cs[k].value * ws[k];
      }
    }
  }

  /** The mirror image: at most hi times the weight total when every valid
      value is at most hi. */
  lemma {:induction false} ValidSumAtMost(cs: seq<CornerState>, ws: seq<real>, hi: real)
    requires |cs| == |ws| && Nonnegative(ws) && ValuesAtMost(cs, hi)
    ensures ValidSum(cs, ws) <= ConstantSum(hi, cs, ws)
  {
    if cs != [] {
      var k := |cs| - 1;
      assert Nonnegative(ws[..k]);
      assert ValuesAtMost(cs[..k], hi);
      ValidSumAtMost(cs[..k], ws[..k], hi);
      if cs[k].Inside? {
        assert cs[k].value * ws[k] <= hi * ws[k];
      }
    }
  }

  lemma DivideMonotone(a: real, b: real, t: real)
    requires t > 0.0 && a <= b
    ensures a / t <= b / t
  {
  }

  // ---------------------------------------------------------------------------
  // Properties of the value written for one voxel

  /** Whenever the resampler interpolates, it writes a convex combination of the
      valid corner values: the result lies between any lower and upper bound of
      those values. Otherwise it writes the padding value. */
  lemma ResampledValueIsConvex(img: Image, l: int, pv: real, p: Point, lo: real, hi: real)
    requires ValuesAtLeast(CellStates(img, l, pv, p), lo)
    requires ValuesAtMost(CellStates(img, l, pv, p), hi)
    ensures var cs, ws := CellStates(img, l, pv, p), CellWeights(p);
      if PaddingCount(cs) < 4 && ValidWeight(cs, ws) > 0.0
      then lo <= ResampledValue(img, l, pv, p) <= hi
      else ResampledValue(img, l, pv, p) == pv
  {
    var ws := CellWeights(p);
    WeightsNonnegative(Fraction(p.x), Fraction(p.y), Fraction(p.z));
    assert Nonnegative(ws);
    DecisionIsConvex(CellStates(img, l, pv, p), ws, pv, lo, hi);
  }

  /** The decision rule applied to any corners with non-negative weights. */
  lemma DecisionIsConvex(cs: seq<CornerState>, ws: seq<real>, pv: real, lo: real, hi: real)
    requires |cs| == |ws| && Nonnegative(ws)
    requires ValuesAtLeast(cs, lo) && ValuesAtMost(cs, hi)
    ensures var r := Decide(PaddingCount(cs), ValidSum(cs, ws), ValidWeight(cs, ws), pv);
      if PaddingCount(cs) < 4 && ValidWeight(cs, ws) > 0.0 then lo <= r <= hi else r == pv
  {
    if PaddingCount(cs) < 4 && ValidWeight(cs, ws) > 0.0 {
      ValidSumAtLeast(cs, ws, lo);
      ValidSumAtMost(cs, ws, hi);
      ConstantSumRatio(lo, cs, ws);
      ConstantSumRatio(hi, cs, ws);
      DivideMonotone(ConstantSum(lo, cs, ws), ValidSum(cs, ws), ValidWeight(cs, ws));
      DivideMonotone(ValidSum(cs, ws), ConstantSum(hi, cs, ws), ValidWeight(cs, ws));
    }
  }

  /** Dividing the constant sum by the weight total gives back the constant. */
  lemma ConstantSumRatio(c: real, cs: seq<CornerState>, ws: seq<real>)
    requires |cs| == |ws| && ValidWeight(cs, ws) > 0.0
    ensures ConstantSum(c, cs, ws) / ValidWeight(cs, ws) == c
  {
    ConstantSumIsScaledWeight(c, cs, ws);
    ScaledRatio(c, ValidWeight(cs, ws), ConstantSum(c, cs, ws));
  }

  lemma ScaledRatio(c: real, total: real, scaled: real)
    requires total > 0.0 && scaled == c * total
    ensures scaled / total == c
  {
  }

  /** The weight total can only be zero when the base corner (u, v, w) is not a
      valid corner: its weight w1 is positive for every source point. So the
      "edge of padded voxels" case needs an out-of-bounds or padding base corner. */
  lemma ValidBaseCornerGivesPositiveWeight(img: Image, l: int, pv: real, p: Point)
    requires CellStates(img, l, pv, p)[0].Inside?
    ensures ValidWeight(CellStates(img, l, pv, p), CellWeights(p)) > 0.0
  {
    var cs, ws := CellStates(img, l, pv, p), CellWeights(p);
    WeightsNonnegative(Fraction(p.x), Fraction(p.y), Fraction(p.z));
    BaseWeightPositive(Fraction(p.x), Fraction(p.y), Fraction(p.z));
    ValidWeightPositiveIff(cs, ws);
  }

  /** A source point whose eight corners all lie outside the source passes the
      padding-counter test (the counter ends at 0) but gets the padding value,
      because its weight total is zero. */
  lemma AllCornersOutsideGivePadding(img: Image, l: int, pv: real, p: Point)
    requires forall n :: 0 <= n < 8 ==> !InBounds(img, Base(p.x) + DX(n), Base(p.y) + DY(n), Base(p.z) + DZ(n))
    ensures PaddingCount(CellStates(img, l, pv, p)) == 0
    ensures ValidWeight(CellStates(img, l, pv, p), CellWeights(p)) == 0.0
    ensures ResampledValue(img, l, pv, p) == pv
  {
    var cs, ws := CellStates(img, l, pv, p), CellWeights(p);
    assert forall n :: 0 <= n < 8 ==> cs[n].Outside?;
    UnrollPadding(cs);
    UnrollWeight(cs, ws);
  }

  /** With all weight on the base corner, and that corner valid, the weight
      total is 1 and the weighted sum is the base corner's value. */
  lemma BaseCornerOnly(cs: seq<CornerState>, ws: seq<real>)
    requires |cs| == 8 && cs[0].Inside?
    requires ws == [1.0, 0.0, 0.0, 0.0, 0.0, 0.0, 0.0, 0.0]
    ensures ValidWeight(cs, ws) == 1.0
    ensures ValidSum(cs, ws) == cs[0].value
  {
    UnrollWeight(cs, ws);
    UnrollSum(cs, ws);
  }

  /** At an integer source point whose voxel is in bounds and not padding, and
      with fewer than four padding corners, the resampler reproduces that
      voxel's value exactly: its weight is 1 and every other weight is 0. */
  lemma IntegerPointReproducesVoxel(img: Image, l: int, pv: real, i: int, j: int, k: int)
    requires InBounds(img, i, j, k) && img.voxel(i, j, k, l) != pv
    requires PaddingCount(CornerStates(img, l, pv, i, j, k)) < 4
    ensures ResampledValue(img, l, pv, Point(i as real, j as real, k as real)) == img.voxel(i, j, k, l)
  {
    var p := Point(i as real, j as real, k as real);
    assert Base(p.x) == i && Base(p.y) == j && Base(p.z) == k;
    WeightsAtBaseCorner();
    BaseCornerOnly(CellStates(img, l, pv, p), CellWeights(p));
  }

  // ---------------------------------------------------------------------------
  // Worked cases on a 2 x 2 x 2 source with one frame, padding value -1

  /** Voxel (a, b, c) holds 10 + 10 * (4a + 2b + c): the values 10, 20, ..., 80. */
  function Ramp(a: int, b: int, c: int, t: int): real
  {
    (10 + 10 * (4 * a + 2 * b + c)) as real
  }

  /** The ramp with voxel (1, 1, 1) replaced by the padding value. */
  function RampOnePadded(a: int, b: int, c: int, t: int): real
  {
    if a == 1 && b == 1 && c == 1 then -1.0 else Ramp(a, b, c, t)
  }

  /** The ramp with the whole face a = 1 replaced by the padding value. */
  function RampFacePadded(a: int, b: int, c: int, t: int): real
  {
    if a == 1 then -1.0 else Ramp(a, b, c, t)
  }

  /** At the centre of the source all eight corners are valid and each weighs
      one eighth: the result is their mean, 45. */
  lemma CentreOfRampIsMean()
    ensures ResampledValue(Image(2, 2, 2, 1, Ramp), 0, -1.0, Point(0.5, 0.5, 0.5)) == 45.0
  {
    var img, p := Image(2, 2, 2, 1, Ramp), Point(0.5, 0.5, 0.5);
    assert Base(0.5) == 0;
    WeightsAtCentre();
    var cs := CellStates(img, 0, -1.0, p);
    assert cs == [Inside(10.0), Inside(20.0), Inside(30.0), Inside(40.0),
                  Inside(50.0), Inside(60.0), Inside(70.0), Inside(80.0)];
    UnrollPadding(cs);
    UnrollWeight(cs, CellWeights(p));
    UnrollSum(cs, CellWeights(p));
  }

  /** One padding corner is left out and the other seven are renormalised:
      (10 + 20 + ... + 70) / 7 = 40. */
  lemma OnePaddingCornerIsRenormalised()
    ensures ResampledValue(Image(2, 2, 2, 1, RampOnePadded), 0, -1.0, Point(0.5, 0.5, 0.5)) == 40.0
  {
    var img, p := Image(2, 2, 2, 1, RampOnePadded), Point(0.5, 0.5, 0.5);
    assert Base(0.5) == 0;
    WeightsAtCentre();
    var cs := CellStates(img, 0, -1.0, p);
    assert cs == [Inside(10.0), Inside(20.0), Inside(30.0), Inside(40.0),
                  Inside(50.0), Inside(60.0), Inside(70.0), Padding];
    UnrollPadding(cs);
    UnrollWeight(cs, CellWeights(p));
    UnrollSum(cs, CellWeights(p));
  }

  /** Four padding corners reach the threshold: the padding value is written. */
  lemma FourPaddingCornersGivePadding()
    ensures ResampledValue(Image(2, 2, 2, 1, RampFacePadded), 0, -1.0, Point(0.5, 0.5, 0.5)) == -1.0
  {
    var img, p := Image(2, 2, 2, 1, RampFacePadded), Point(0.5, 0.5, 0.5);
    assert Base(0.5) == 0;
    var cs := CellStates(img, 0, -1.0, p);
    assert cs == [Inside(10.0), Inside(20.0), Inside(30.0), Inside(40.0),
                  Padding, Padding, Padding, Padding];
    UnrollPadding(cs);
  }

  /** At an integer point the four padding corners of the +1 slice along x carry
      weight 0, yet they still count: the voxel at the origin holds 10, but it is
      resampled to the padding value, so resampling at the voxel's own
      coordinates does not reproduce it. */
  lemma ZeroWeightPaddingCornersStillCount()
    ensures RampFacePadded(0, 0, 0, 0) == 10.0
    ensures ResampledValue(Image(2, 2, 2, 1, RampFacePadded), 0, -1.0, Point(0.0, 0.0, 0.0)) == -1.0
  {
    var img, p := Image(2, 2, 2, 1, RampFacePadded), Point(0.0, 0.0, 0.0);
    assert Base(0.0) == 0;
    var cs := CellStates(img, 0, -1.0, p);
    assert cs == [Inside(10.0), Inside(20.0), Inside(30.0), Inside(40.0),
                  Padding, Padding, Padding, Padding];
    UnrollPadding(cs);
  }

  /** Half a voxel beyond the last slice along x, four corners lie outside the
      source. They are not counted as padding, so the value is interpolated
      from the four in-bounds corners alone: (50 + 60 + 70 + 80) / 4 = 65. */
  lemma OutOfBoundsCornersAreNotPadding()
    ensures ResampledValue(Image(2, 2, 2, 1, Ramp), 0, -1.0, Point(1.5, 0.5, 0.5)) == 65.0
  {
    var img, p := Image(2, 2, 2, 1, Ramp), Point(1.5, 0.5, 0.5);
    assert Base(1.5) == 1 && Base(0.5) == 0;
    assert Fraction(1.5) == 0.5;
    WeightsAtCentre();
    var cs := CellStates(img, 0, -1.0, p);
    assert cs == [Inside(50.0), Inside(60.0), Inside(70.0), Inside(80.0),
                  Outside, Outside, Outside, Outside];
    UnrollPadding(cs);
    UnrollWeight(cs, CellWeights(p));
    UnrollSum(cs, CellWeights(p));
  }
}
