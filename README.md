# Padding-aware trilinear resampling and the linear free-form deformation

This project is a Dafny model of two pieces of the IRTK image registration toolkit.

**Padding-aware resampling** (`irtkResamplingWithPadding::Run`). Every voxel of the output image is mapped to a point (x, y, z) of the source image. The voxel gets a value from the eight source voxels around that point, weighted trilinearly:
- A corner outside the source is left out.
- A corner whose value equals the padding value is left out.
- If fewer than four corners hold the padding value and the remaining corners carry some weight, the voxel gets the renormalised weighted average of those corners.
- Otherwise it gets the padding value.

**The linear free-form deformation** (`irtkLinearFreeFormTransformation3D`, the inline operations). These are:
- the control-point displacement at a lattice index;
- the local transformation, which adds the interpolated displacement to a point;
- its approximate inverse, which subtracts it;
- the spatial Jacobian, which is the displacement derivative plus the identity;
- the derivative of the displacement with respect to one control point.

The project has three modules:
- `Trilinear` (`trilinear.dfy`): the kernel both pieces share. It splits a coordinate into its floor and an offset, and gives the eight corner weights, their order, non-negativity and partition of unity.
- `Resampling` (`resampling.dfy`):
  - a reference definition of the value written for one voxel (`ResampledValue`);
  - imperative methods that follow the source block by block and loop by loop, proved against that definition;
  - lemmas about what the counter, the weight total and the result mean.
- `LinearFFD` (`linear_ffd.dfy`): the transformation operations over real triples, with array-writing methods for `LocalJacobian` and `JacobianDOFs`.

Doubles are modelled as Dafny `real`, so the weight identities hold exactly. The source image is a value: the resampler only reads it, so it is never modified. The output image is an `array4<real>` written in place.

Operations whose bodies are not part of the model are fields of a datatype or function parameters, and the contracts are stated in terms of them:
- the image-to-world and world-to-image maps, composed into `toSource`;
- the world-to-lattice map;
- the continuous displacement interpolator;
- `EvaluateJacobian`;
- `JacobianToWorld`.

Three behaviours of the code are easy to miss, and the model follows the code in all of them:
- **Out-of-bounds corners are not counted as padding.** The comment at `.cc:274` says only that padded values are ignored. The counter `pad` starts at 8 and is decremented both for a valid corner and for an out-of-bounds corner (`.cc:286-287`). It therefore ends at the number of in-bounds corners holding the padding value (`PadCounterCountsInBoundsPaddingCorners`). A point half a voxel beyond the source edge is still interpolated from its in-bounds corners (`OutOfBoundsCornersAreNotPadding`). A point whose corners all lie outside gets the padding value only because its weight total is 0 (`AllCornersOutsideGivePadding`).
- **Padding corners count even when their weight is 0.** A corner holding the padding value decrements nothing and is counted whatever its weight (`.cc:281-285`). At a voxel's own integer coordinates, four padding neighbours on the +1 side along one axis therefore give the padding value, although those neighbours carry no weight and the voxel itself is valid (`ZeroWeightPaddingCornersStillCount`). Resampling with an identity mapping reproduces a valid voxel only when fewer than four of its corners are padding (`IntegerPointReproducesVoxel`).
- **`LocalInverse` is not an exact inverse of `LocalTransform`.** The header documents it as transforming a point "using the inverse of the local transformation" (`.h:131`). It evaluates the displacement at its own input, so the round trip is the identity exactly when the displacement at the moved point equals the displacement at the original point (`InverseUndoesTransformIff`). `InverseIsNotExact` gives a point where it is not, although the function still reports success.

## Model

| member | source | states |
|---|---|---|
| Trilinear.Fraction | Modules/Image/src/irtkResamplingWithPadding.cc:255-262 | the offset of a coordinate above its floor lies in [0, 1), and floor plus offset gives back the coordinate |
| Trilinear.WeightsAsWritten | Modules/Image/src/irtkResamplingWithPadding.cc:265-272 | the eight weights w1..w8 as written are the tensor products of the 1-D kernels (1 - d, d), in the corner order the resampler visits: z fastest, then y, then x |
| Trilinear.WeightsNonnegative | Modules/Image/src/irtkResamplingWithPadding.cc:265-272 | for offsets in [0, 1] every weight is non-negative |
| Trilinear.WeightsSumToOne | Modules/Image/src/irtkResamplingWithPadding.cc:265-272 | for any offsets the eight weights sum to exactly 1 |
| Trilinear.BaseWeightPositive | Modules/Image/src/irtkResamplingWithPadding.cc:265 | for offsets in [0, 1) the base-corner weight w1 is strictly positive |
| Trilinear.WeightsAtBaseCorner | Modules/Image/src/irtkResamplingWithPadding.cc:260-272 | at zero offsets w1 = 1 and w2..w8 = 0 |
| Trilinear.WeightsAtCentre | Modules/Image/src/irtkResamplingWithPadding.cc:265-272 | at offsets (0.5, 0.5, 0.5) every weight is 1/8 |
| Resampling.VisitCorner | Modules/Image/src/irtkResamplingWithPadding.cc:278-288 | one corner block: an in-bounds non-padding corner decrements pad and adds its weight and weighted value; an in-bounds padding corner changes nothing; an out-of-bounds corner only decrements pad |
| Resampling.AccumulateCorners | Modules/Image/src/irtkResamplingWithPadding.cc:275-365 | starting from val = 0, pad = 8, sum = 0, the eight blocks leave pad equal to the number of padding corners, sum equal to the weight total of the valid corners and val equal to their weighted sum |
| Resampling.ResampleVoxel | Modules/Image/src/irtkResamplingWithPadding.cc:255-379 | the per-voxel computation (floor, offsets, weights, corner blocks, decision) yields the reference value ResampledValue for the source point |
| Resampling.ResampleRow | Modules/Image/src/irtkResamplingWithPadding.cc:247-380 | every voxel of row (j, k, l) receives the reference value for its own source point; no other output voxel changes |
| Resampling.ResampleSlice | Modules/Image/src/irtkResamplingWithPadding.cc:246-381 | every voxel of slice (k, l) receives its reference value; no other output voxel changes |
| Resampling.ResampleSlab | Modules/Image/src/irtkResamplingWithPadding.cc:39-47 | the slices kBegin..kEnd-1 of frame l (one worker's range) receive their reference values; every voxel outside that range keeps its old value |
| Resampling.Run | Modules/Image/src/irtkResamplingWithPadding.cc:239-382 | after the pass, every output voxel (i, j, k, l) holds the reference value for frame l at the source point of (i, j, k) |
| Resampling.PaddingCountIsCardinality | Modules/Image/src/irtkResamplingWithPadding.cc:276-365 | the padding counter is the size of the set of corners whose state is Padding |
| Resampling.PadCounterCountsInBoundsPaddingCorners | Modules/Image/src/irtkResamplingWithPadding.cc:276-365 | the counter equals the number of corners that are inside the source bounds and equal the padding value; out-of-bounds corners are not counted |
| Resampling.ValidWeightPositiveIff | Modules/Image/src/irtkResamplingWithPadding.cc:275-365 | with non-negative weights the weight total is non-negative, and positive exactly when some valid corner has a positive weight |
| Resampling.ValidSumAtLeast | Modules/Image/src/irtkResamplingWithPadding.cc:275-365 | if every valid value is at least lo, the weighted sum is at least the sum those corners would have if each held lo |
| Resampling.ValidSumAtMost | Modules/Image/src/irtkResamplingWithPadding.cc:275-365 | the mirror bound with hi |
| Resampling.ConstantSumIsScaledWeight | Modules/Image/src/irtkResamplingWithPadding.cc:275-365 | the sum of the valid corners all holding c is c times their weight total |
| Resampling.Decide | Modules/Image/src/irtkResamplingWithPadding.cc:366-379 | when fewer than four corners are padding and the weight total is positive, the result times the weight total gives back the weighted sum (the renormalised average); in every other case the result is the padding value |
| Resampling.DecisionIsConvex | Modules/Image/src/irtkResamplingWithPadding.cc:366-379 | for any non-negatively weighted corners with valid values in [lo, hi], the decision rule yields a value in [lo, hi] when pad < 4 and sum > 0, and the padding value otherwise |
| Resampling.ResampledValueIsConvex | Modules/Image/src/irtkResamplingWithPadding.cc:366-379 | the value written for a voxel is a convex combination of its valid corner values (between any bounds of them) when pad < 4 and sum > 0, and the padding value otherwise |
| Resampling.ValidBaseCornerGivesPositiveWeight | Modules/Image/src/irtkResamplingWithPadding.cc:278-285 | if the base corner (u, v, w) is valid, the weight total is positive; the "edge of padded voxels" case needs an invalid base corner |
| Resampling.AllCornersOutsideGivePadding | Modules/Image/src/irtkResamplingWithPadding.cc:275-379 | when all eight corners lie outside the source, pad ends at 0 and sum at 0, and the padding value is written |
| Resampling.IntegerPointReproducesVoxel | Modules/Image/src/irtkResamplingWithPadding.cc:255-368 | at an integer source point whose voxel is in bounds and not padding, with fewer than four padding corners, the output is exactly that voxel's value |
| Resampling.CentreOfRampIsMean | Modules/Image/src/irtkResamplingWithPadding.cc:265-368 | on the 2x2x2 ramp 10..80 the centre point gets the mean 45 |
| Resampling.OnePaddingCornerIsRenormalised | Modules/Image/src/irtkResamplingWithPadding.cc:275-368 | with corner (1, 1, 1) padded, the centre gets the renormalised average 40 of the other seven |
| Resampling.FourPaddingCornersGivePadding | Modules/Image/src/irtkResamplingWithPadding.cc:366-379 | with four padding corners the padding value is written |
| Resampling.ZeroWeightPaddingCornersStillCount | Modules/Image/src/irtkResamplingWithPadding.cc:276-379 | at the integer point (0, 0, 0), whose voxel holds 10, four padding corners of weight 0 still make the result the padding value |
| Resampling.OutOfBoundsCornersAreNotPadding | Modules/Image/src/irtkResamplingWithPadding.cc:286-287 | a point half a voxel beyond the last x slice is interpolated from its four in-bounds corners (65), because out-of-bounds corners do not count towards the threshold |
| LinearFFD.EvaluateAt | Modules/Transformation/include/irtkLinearFreeFormTransformation3D.h:196-201 | evaluation at lattice index (i, j, k) returns what trilinear interpolation of the control points gives at that lattice point |
| LinearFFD.InterpolatedAtLatticeIndex | Modules/Transformation/include/irtkLinearFreeFormTransformation3D.h:196-201 | trilinear interpolation of the control points at an integer lattice point gives back the control-point vector stored there |
| LinearFFD.LocalTransform | Modules/Transformation/include/irtkLinearFreeFormTransformation3D.h:216-226 | the transformed point differs from the input by exactly the displacement at the input's lattice coordinates |
| LinearFFD.LocalInverse | Modules/Transformation/include/irtkLinearFreeFormTransformation3D.h:229-240 | the inverse always reports success |
| LinearFFD.InverseUndoesTransformIff | Modules/Transformation/include/irtkLinearFreeFormTransformation3D.h:216-240 | LocalInverse(LocalTransform(p)) = p if and only if the displacement at the moved point equals the displacement at p |
| LinearFFD.TransformUndoesInverseIff | Modules/Transformation/include/irtkLinearFreeFormTransformation3D.h:216-240 | LocalTransform(LocalInverse(q)) = q if and only if the displacement at the inverted point equals the displacement at q |
| LinearFFD.ConstantDisplacementRoundTrip | Modules/Transformation/include/irtkLinearFreeFormTransformation3D.h:216-240 | a displacement that is the same everywhere is inverted exactly, in both orders |
| LinearFFD.InverseIsNotExact | Modules/Transformation/include/irtkLinearFreeFormTransformation3D.h:216-240 | with displacement (x, 0, 0) the point (1, 0, 0) moves to (2, 0, 0), whose inverse is the origin, and the inverse still reports success |
| LinearFFD.LocalJacobian | Modules/Transformation/include/irtkLinearFreeFormTransformation3D.h:247-260 | the resulting matrix is the world-coordinate derivative of the displacement with exactly 1 added to each diagonal entry; off-diagonal entries are unchanged |
| LinearFFD.JacobianDOFs | Modules/Transformation/include/irtkLinearFreeFormTransformation3D.h:263-277 | (corrected) all three entries of jac hold the control point's weight at the point's lattice coordinates, which is 0 outside the support |
| LinearFFD.SupportWeightRange | Modules/Transformation/include/irtkLinearFreeFormTransformation3D.h:269-276 | for non-negative distances the weight is in (0, 1] inside the support, 0 outside, and 1 at distance zero |
| LinearFFD.DOFWeightRange | Modules/Transformation/include/irtkLinearFreeFormTransformation3D.h:266-276 | a control point's weight is in (0, 1] inside its support, 0 outside, and exactly 1 at the control point |
| LinearFFD.SupportWeightIsKernelProduct | Modules/Transformation/include/irtkLinearFreeFormTransformation3D.h:268-276 | the support test plus product equals the product of three 1-D linear kernels, inside and outside the support |
| LinearFFD.DOFWeightReflectionSymmetric | Modules/Transformation/include/irtkLinearFreeFormTransformation3D.h:269-271 | reflecting the point about the control point along any combination of axes leaves the weight unchanged |
| LinearFFD.KernelAtCellEnds | Modules/Transformation/include/irtkLinearFreeFormTransformation3D.h:269-273 | along one axis the kernels of the two ends of the cell containing x are 1 - d and d for the offset d |
| LinearFFD.KernelOutsideCell | Modules/Transformation/include/irtkLinearFreeFormTransformation3D.h:269-276 | along one axis every lattice index other than the two ends of the cell has kernel 0 |
| LinearFFD.DOFWeightIsCornerWeight | Modules/Transformation/include/irtkLinearFreeFormTransformation3D.h:268-273 | the weight of the control point at corner n of the cell containing q equals the n-th trilinear interpolation weight: the derivative matches the interpolation kernel |
| LinearFFD.DOFWeightOutsideCell | Modules/Transformation/include/irtkLinearFreeFormTransformation3D.h:272-276 | a control point that is not a corner of the cell containing q has weight 0 |
| LinearFFD.CellDOFWeightsAreWeights | Modules/Transformation/include/irtkLinearFreeFormTransformation3D.h:268-273 | the derivative weights of the eight control points of a cell, in corner order, are the trilinear weights of the point's offsets |
| LinearFFD.InterpolatedIsDOFWeighted | Modules/Transformation/include/irtkLinearFreeFormTransformation3D.h:263-273 | the interpolated displacement is the sum over the cell's eight control points of the derivative weight times the control-point vector, so each weight is that control point's coefficient |
| LinearFFD.DisplacementIsDOFWeighted | Modules/Transformation/include/irtkLinearFreeFormTransformation3D.h:216-273 | when the interpolator is trilinear interpolation of the control points, the displacement applied at a world point is the sum over the cell's eight control points of the derivative weight times the control-point vector |
| LinearFFD.DOFWeightsSumToOne | Modules/Transformation/include/irtkLinearFreeFormTransformation3D.h:268-273 | the weights of the eight control points of the cell containing q sum to 1 |
| LinearFFD.JacobianDOFsAsWritten | Modules/Transformation/include/irtkLinearFreeFormTransformation3D.h:263-277 | for an array of any length, the code as written first stores to index 2 inside the support and to index 3 outside it; it faults at that index when the array is too short, and otherwise sets entries 0, 1 and that index to the weight and leaves every other entry unchanged |
| LinearFFD.JacobianDOFsAsWrittenOverruns | Modules/Transformation/include/irtkLinearFreeFormTransformation3D.h:272-276 | on a three-element array the code as written agrees with the corrected derivative inside the support, and outside it stores to index 3 |
| LinearFFD.JacobianDOFsOverrunExample | Modules/Transformation/include/irtkLinearFreeFormTransformation3D.h:275 | control point (0, 0, 0) and lattice point (2, 0, 0) reach the out-of-bounds store |

## Left out

- The multi-threaded path is modelled through the work it hands to each worker, as `ResampleSlab`. Its scheduling, `tick_count` timing and debug output (`.cc:236-242,388-393`) are concurrency and I/O.
- The corner and decision logic in the multi-threaded `operator()` (`.cc:48-180`) repeats the sequential path and is modelled once.
- The bodies of the coordinate maps `ImageToWorld`, `WorldToImage`, `WorldToLattice` and `JacobianToWorld`, the continuous interpolator `_FFD` and `EvaluateJacobian` are not part of this model. They enter as function parameters and datatype fields. `Interpolated` is a reference trilinear interpolation of the control points. It states what evaluation at a lattice index returns (`EvaluateAt`) and that the weight `JacobianDOFs` writes is each control point's coefficient in the interpolation (`InterpolatedIsDOFWeighted`).
- Conversion of the result into the output voxel type (`PutAsDouble`/`Put` into integer or float storage) and the template instantiations (`.cc:399-405`) are not modelled. Output values are reals.
- IEEE double rounding is not modelled: arithmetic is exact over the reals.
- `Initialize`, `InitializeOutput` and `Finalize` (`.cc:212-220,396`) are base-class setup and are not part of this model.
- The members declared but not defined in the header are not part of this model, because they have no bodies: the constructors, `ApproximateDOFs`, `ApproximateDOFsGradient`, `Interpolate`, `BoundingBox`, `BendingEnergy`, `BendingEnergyGradient`, `KernelSize`, `Print`, `CanRead` and `Compose`.
- The continuous `Evaluate(x, y, z)` (`.h:204-209`) takes lattice coordinates and is the `interpolate` field of `Transformation`; `Displacement` composes it with `worldToLattice`, as `.h:220-223` does. Nothing ties `interpolate` to the control points in general; `DisplacementIsDOFWeighted` states the coefficient fact for a trilinear interpolator (`LinearlyInterpolated`).
- `Modules/Image/include/irtkFastLinearImageGradientFunction3D.hxx` only forwards to functions whose bodies are not part of this model.
- Resampling.Run: "written exactly once" is captured by the loop structure only. Each method writes each voxel of its range in one iteration, and the frame ensures state that nothing else changes. No write count is kept.
- Resampling.Run: the frame index l is not checked against the source's number of frames, just as in the source. The voxel function is read at whatever l the output has.
- Trilinear.Base: the source's `(int)floor(x)` (`.cc:255-257`) converts to a 32-bit `int`, which is undefined for coordinates beyond the `int` range and for NaN. The model floors into an unbounded integer, so it does not capture those cases.
- LinearFFD.LocalJacobian: the matrix is a 3 x 3 array supplied by the caller. The resizing done inside `EvaluateJacobian` is not modelled.
- LinearFFD.JacobianDOFs: the `double jac[3]` parameter is an array of length 3.

## Findings

| source | as written | input that shows it | evidently intended | confidence | as-written member | corrected member |
|---|---|---|---|---|---|---|
| Modules/Transformation/include/irtkLinearFreeFormTransformation3D.h:275 | outside the support the chained assignment stores 0 into `jac[3]`, `jac[1]`, `jac[0]`: one element past the end of `double jac[3]`, leaving `jac[2]` unset | control point (0, 0, 0), point at lattice coordinates (2, 0, 0) | `jac[0] = jac[1] = jac[2] = .0`, so all three derivatives are 0 outside the support | high; not executed | LinearFFD.JacobianDOFsAsWrittenOverruns | LinearFFD.JacobianDOFs |
