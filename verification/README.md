# A verified model of a small software rasterizer

This project models the core of a C software rasterizer. It covers five parts:

- **Vector algebra:** `vec3.c`.
- **4x4 matrix helpers:** `mymath.c`.
- **View-frustum culling:** `frustum.c`.
- **Triangle scan conversion:** `renderer.c`, with the reference `drawTriangle`, the live `drawTriangle2` and the per-face driver `renderMesh`.
- **Vertex welding:** `createFinalGeometry` in `loadobj.c`.

Each C file is one Dafny module (`Vec`, `MyMath`, `FrustumCulling`, `Renderer`, `LoadObj`). Two more pieces are shared:

- `Raster` holds the frame-buffer layout and the row-by-row scan that both triangle routines share.
- `Vec3` is one datatype used by all five modules.

Types and arithmetic:

- C `float` is `real`, computed exactly. C `int` and `unsigned` are `int`.
- A float-to-int conversion is truncation toward zero (`Renderer.Trunc`). `round` rounds half away from zero (`Renderer.Round`).
- The cast to `unsigned short` in `createFinalGeometry` is written out as `% 65536`.
- `sqrtf`, `tanf`, `sinf` and `cosf` are function parameters.

Code that works in place stays imperative:

- **Out-matrices** are `array<real>` of length 16.
- **Classes with fields updated in place:** `Plane`, `Frustum`, `Vec3Var` (the pointee of `normalize`) and `Mesh`.
- **Frame buffers:** the depth buffer and the colour buffer are arrays of `WIDTH * HEIGHT` entries, addressed row by row.
- **Loops:** each triangle routine's loops are Dafny loops.

Each imperative routine is proved against a specification function, and the properties are proved about those functions:

| routine | specification function |
|---|---|
| `drawTriangle2` | `DrawTriangle2Frame` |
| `drawTriangle` | `DrawTriangleFrame` |
| `renderMesh` | `RenderTriangles` |
| `createFinalGeometry` | `Weld` and `BoundsMin`/`BoundsMax` |

A C `assert` that stops the program is modelled as an `ok = false` result, or a `None` in the specification.

## Model

| member | source | states |
|---|---|---|
| Vec.Dot | vec3.c:11-14 | no contract of its own; its properties are stated by `DotSymmetric`, `DotSub` and `Mulf` |
| Vec.Add | vec3.c:49-52 | no contract of its own; `Neg`, `Sub` and `SubIsAddNeg` state how it combines with negation and subtraction |
| Vec.Cross | vec3.c:16-19 | the cross product is orthogonal to both arguments |
| Vec.Neg | vec3.c:39-42 | adding a vector and its negation gives the zero vector |
| Vec.Sub | vec3.c:44-47 | `sub(a, b) + b == a` |
| Vec.Mulf | vec3.c:54-57 | scaling by `f` scales every dot product by `f` |
| Vec.Normalized | vec3.c:29-37 | every component is multiplied by the same factor `1/sqrt(dot(v, v))`; the factor is positive for a non-zero vector when `sqrt` is positive on positive arguments |
| Vec.Vec3Var.constructor | vec3.c:1-4 | the object holds the given vector |
| Vec.Vec3Var.Normalize | vec3.c:21-27 | in-place `normalize` leaves exactly what `normalized` returns for the old value |
| Vec.NormalizedIsUnit | vec3.c:29-37 | with an exact square root, a normalised non-zero vector has length 1 |
| Vec.NonZeroHasPositiveSquare | vec3.c:21-23 | a non-zero vector has a positive squared length, so `sqrtf` is taken of a positive value |
| Vec.CrossAntiCommutative | vec3.c:16-19 | `cross(a, b) == neg(cross(b, a))` |
| Vec.DotSymmetric | vec3.c:11-14 | `dot(v, w) == dot(w, v)` |
| Vec.SubIsAddNeg | vec3.c:39-52 | `sub(a, b) == add(a, neg(b))` |
| Vec.NegInvolution | vec3.c:39-42 | `neg(neg(v)) == v` |
| Vec.DotSub | vec3.c:11-47 | `dot` distributes over `sub` |
| MyMath.Mini | mymath.c:13-16 | the result is one of the arguments and no larger than either |
| MyMath.Maxi | mymath.c:18-21 | the result is one of the arguments and no smaller than either |
| MyMath.ClampInRange | mymath.c:13-21 | `maxi(0, mini(i, n - 1))` lies in `[0, n - 1]` and is `i` when `i` already does |
| MyMath.MakeIdentity | mymath.c:41-49 | the matrix becomes the identity: 1 at indices 0, 5, 10 and 15, 0 elsewhere, with index 15 set after the zeroing loop |
| MyMath.Identity | mymath.c:41-49 | the matrix `makeIdentity` writes: 1 at indices 0, 5, 10 and 15, 0 elsewhere; `ProductIdentityLeft`, `ProductIdentityRight` and `TransformIdentity` state what it is for |
| MyMath.MakeProjection | mymath.c:23-39 | the matrix becomes the perspective projection for `f = 1/tan(fov/2)` |
| MyMath.Projection | mymath.c:23-39 | the matrix `makeProjection` writes for `f = 1/tan(fov/2)`, with the degrees-to-radians factor of mymath.c:25; `ProjectionFixedEntries` and `ProjectionDepthRange` state its entries and depth range |
| MyMath.ProjectionFixedEntries | mymath.c:27-33 | whatever the inputs, the projection has -1 at index 11 and 0 at index 15 |
| MyMath.ProjectionDepthRange | mymath.c:27-33 | the projection maps view depth `-near` to clip z 0 and `-far` to clip z `far` |
| MyMath.MakeRotationXYZ | mymath.c:51-77 | the matrix becomes the rotation built from the sines and cosines of the three angles |
| MyMath.Rotation | mymath.c:51-77 | the matrix `makeRotationXYZ` writes from the sines and cosines of the three angles; `RotationFixedEntries` and `RotationOfZeroAnglesIsIdentity` state its entries |
| MyMath.RotationFixedEntries | mymath.c:61-76 | whatever the angles, the last column is (0, 0, 0, 1) and the translation row is 0 |
| MyMath.RotationOfZeroAnglesIsIdentity | mymath.c:51-77 | with sines 0 and cosines 1 the rotation is the identity |
| MyMath.ProductEntryFormula | mymath.c:87-90 | entry (i, j) of the product is `sum over k of a[4i+k] * b[4k+j]`, in the order written |
| MyMath.Product | mymath.c:79-98 | the reference product of two 4x4 matrices that `multiply` and `multiplySSE` compute, entry (i, j) as stated by `ProductEntryFormula` |
| MyMath.Multiply | mymath.c:79-98 | the result is the product of the input values, also when `result` is the same array as `a` or `b` |
| MyMath.RowSSE | mymath.c:130-145 | after the unrolled first step and the `j` loop, the register holds row `i` of the product |
| MyMath.PartialRowStep | mymath.c:137-142 | one more lane-wise multiply-add extends the partial row by one term |
| MyMath.MultiplySSE | mymath.c:112-151 | the SSE routine computes the same product as `multiply`, also when the output aliases an input |
| MyMath.ProductIdentityLeft | mymath.c:41-98 | `multiply(I, M) == M` |
| MyMath.ProductIdentityRight | mymath.c:41-98 | `multiply(M, I) == M` |
| MyMath.TransformPoint | mymath.c:100-110 | the origin goes to the translation row (indices 12, 13, 14); `TransformIdentity`, `TransformIgnoresLastColumn` and `TransformByProduct` state the rest |
| MyMath.TransformIdentity | mymath.c:100-110 | the identity maps every point to itself |
| MyMath.TransformIgnoresLastColumn | mymath.c:100-110 | matrices that differ only at indices 3, 7, 11 and 15 transform every point alike |
| MyMath.TransformByProduct | mymath.c:79-110 | for affine `a`, transforming by `a * b` is transforming by `a`, then by `b` |
| MyMath.LocalToRaster | mymath.c:178-189 | the transformed z is kept as the output z; the output x and y are the viewport centre plus the clip x and y scaled by half the viewport and divided by z |
| MyMath.RasterCentre | mymath.c:178-189 | a point whose transformed x and y are 0 lands on the viewport centre (480, 270) |
| FrustumCulling.PlaneFromNormalAndPoint | frustum.c:38-43 | the plane's normal is the normalised normal, and the given point lies on the plane |
| FrustumCulling.PlaneFromPoints | frustum.c:45-52 | the normal is the normalised `cross(c - b, a - b)`, and all three points lie on the plane |
| FrustumCulling.DistanceFromPointOnPlane | frustum.c:33-43 | the distance to a plane through `p0` is `dot(n, q - p0)` |
| FrustumCulling.DistanceAlongNormal | frustum.c:33-43 | a point's distance is the offset along the given normal times the positive normalisation factor |
| FrustumCulling.InFrontOfPlane | frustum.c:38-43 | a point on the side the given normal points to has a non-negative distance |
| FrustumCulling.Plane.constructor | frustum.c:1-8 | a fresh plane with zero points and the zero equation |
| FrustumCulling.Plane.Distance | frustum.c:33-36 | `planeDistance` on the plane's fields is `Dist` of its equation |
| FrustumCulling.Plane.SetNormalAndPoint | frustum.c:38-43 | the plane's equation becomes the normalised normal through the point; the point then has distance 0; `a`, `b` and `c` are unchanged |
| FrustumCulling.Plane.CalculateNormal | frustum.c:45-52 | the plane's equation becomes the one through `a`, `b` and `c`, all three at distance 0; the points are unchanged |
| FrustumCulling.SectionCorners | frustum.c:80-90 | diagonal corners average to the centre, and the corners are spaced by twice the width along x and twice the height along y |
| FrustumCulling.SectionsSimilar | frustum.c:62-65 | the near and far sections have the same proportions: each extent grows in proportion to depth |
| FrustumCulling.AxisOffset | frustum.c:77-78 | two centres on the camera axis differ by a multiple of the axis |
| FrustumCulling.AxisBetweenNearAndFarIsInside | frustum.c:128-129 | every point on the camera axis between the near and far centres is inside both the near and the far plane |
| FrustumCulling.PositiveVertex | frustum.c:141-154 | per axis, the box's maximum where the normal component is `>= 0`, its minimum otherwise |
| FrustumCulling.PositiveVertexIsFarthest | frustum.c:139-156 | no point of the box is farther along the plane's normal than the positive vertex |
| FrustumCulling.BoxWithInsidePointAccepted | frustum.c:132-163 | a box containing a point at non-negative distance from every plane is accepted |
| FrustumCulling.RejectedBoxIsOutside | frustum.c:132-163 | a rejected box lies entirely on the outer side of one plane |
| FrustumCulling.BoxBehindPlaneRejected | frustum.c:132-163 | conversely, a non-empty box whose every point lies on the outer side of one of the planes is rejected |
| FrustumCulling.BehindPlane | frustum.c:38-43 | a point on the side of the point-normal plane opposite to its normal has negative distance |
| FrustumCulling.AxisBeyondFarIsOutside | frustum.c:126-129 | a point on the view axis beyond the far distance lies outside the far plane |
| FrustumCulling.BoxBeyondFarRejected | frustum.c:93-163 | a box lying wholly beyond the far plane is rejected by the frustum built by `updateFrustum` |
| FrustumCulling.Frustum.constructor | frustum.c:10-31 | a frustum with six distinct planes |
| FrustumCulling.Frustum.SetProjection | frustum.c:54-66 | stores the depths and the section extents (`width == height * aspect`); near and far sections are similar; corners and centres are unchanged |
| FrustumCulling.Frustum.UpdateCornersAndCenters | frustum.c:68-91 | the centres are `cam - zAxis * z`, and the corners are the sections around them on the camera's x and y axes; depths and extents are unchanged |
| FrustumCulling.Frustum.UpdateFrustum | frustum.c:93-130 | sets `a`, `b`, `c` of Top to (nearTopRight, nearTopLeft, farTopLeft), of Bottom to (nearBottomLeft, nearBottomRight, farBottomRight), of Left to (nearTopLeft, nearBottomLeft, farBottomLeft) and of Right to (nearBottomRight, nearTopRight, farBottomRight), each with the plane through them; Near gets normal `-zAxis` through the near centre and Far normal `zAxis` through the far centre, with their points unchanged; depths and extents are unchanged; the six equations are `FrustumPlanes` of the camera |
| FrustumCulling.FrustumPlanes | frustum.c:68-130 | the six plane equations `updateFrustum` leaves in slots Far, Near, Bottom, Top, Left, Right; `AxisIsInsideFrustum`, `BoxBeyondFarRejected` and the `*FacesInward` lemmas state their orientation |
| FrustumCulling.ProjectionExtentsOrdered | frustum.c:54-66 | for `0 < near < far` and positive `tan` and aspect, the extents are positive and the far ones exceed the near ones |
| FrustumCulling.CameraFrameOriented | frustum.c:68-74 | for a view axis not parallel to `up`, the camera's x, y and z axes form a right-handed frame: `dot(cross(x, y), z) > 0` |
| FrustumCulling.InsidePlaneFromPoints | frustum.c:45-52 | a point with `dot(cross(c - b, a - b), q - b) > 0` has positive distance from the plane through `a`, `b` and `c` |
| FrustumCulling.BottomFacesInward | frustum.c:113-116 | the Bottom plane gives positive distance to every axis point at least as deep as the near centre |
| FrustumCulling.TopFacesInward | frustum.c:108-111 | the Top plane gives positive distance to every axis point at least as deep as the near centre |
| FrustumCulling.LeftFacesInward | frustum.c:118-121 | the Left plane gives positive distance to every axis point at least as deep as the near centre |
| FrustumCulling.RightFacesInward | frustum.c:123-126 | the Right plane gives positive distance to every axis point at least as deep as the near centre |
| FrustumCulling.AxisIsInsideSidePlanes | frustum.c:108-126 | all four side planes built by `updateFrustum` face inward: positive distance to the axis point at any depth from the near one on |
| FrustumCulling.AxisIsInsideNearAndFar | frustum.c:128-129 | for an axis not parallel to `up`, axis points between the near and far depths are inside the near and far planes |
| FrustumCulling.AxisIsInsideFrustum | frustum.c:93-130 | every axis point between the near and far depths has non-negative distance from all six planes |
| FrustumCulling.AxisBoxAccepted | frustum.c:93-163 | `boxInFrustum` after `updateFrustum` accepts every box that holds such an axis point |
| FrustumCulling.Frustum.BoxInFrustum | frustum.c:132-163 | true exactly when every plane's positive vertex has distance `>= 0` (distance 0 counts as inside) |
| FrustumCulling.BoxAccepted | frustum.c:132-163 | the reference answer of `boxInFrustum`: every plane keeps the box's positive vertex at distance `>= 0`; `BoxWithInsidePointAccepted`, `RejectedBoxIsOutside` and `BoxBehindPlaneRejected` state what it means for the box |
| Raster.IndexOfPixel | renderer.c:202-203 | every buffer index is the row-by-row index of one on-screen pixel |
| Raster.PixelOfIndex | renderer.c:202-203 | every on-screen pixel has one buffer index |
| Raster.SetPixel | renderer.c:217-230 | a write to a pixel changes that pixel of both buffers and no other |
| Raster.MapPixels | renderer.c:205-244 | a per-pixel update applied to the whole frame |
| Raster.MapPixelsIdempotent | renderer.c:205-244 | a per-pixel update that is idempotent on every pixel is idempotent on the frame |
| Raster.ScanStart | renderer.c:205-211 | before the first pixel of the box, nothing needs changing |
| Raster.ScanStep | renderer.c:211-236 | updating the current pixel moves the scan on by one pixel |
| Raster.ScanNextRow | renderer.c:238-244 | the end of one row of the box is the start of the next |
| Raster.ScanEnd | renderer.c:205-244 | past the last row of the box, or for an empty box, the scan has updated the whole frame |
| Renderer.Mesh.constructor | renderer.c:27-37 | a mesh over the given arrays with no vertices or faces and a zero box |
| Renderer.EdgeFunction | renderer.c:39-42 | `edgeFunction(a, b, c) == -orient2D(a, b, c)` |
| Renderer.Orient2D | renderer.c:44-47 | twice the signed area is 0 when two of the three points coincide; `Orient2DCyclic`, `Orient2DSwap` and `Orient2DSteps` state the rest |
| Renderer.Orient2DCyclic | renderer.c:44-47 | `orient2D` is invariant under cyclic rotation of its points |
| Renderer.Orient2DSwap | renderer.c:44-47 | swapping the first two points negates `orient2D` |
| Renderer.Orient2DSteps | renderer.c:44-47 | moving the third point one pixel right or down changes `orient2D` by a constant |
| Renderer.EdgeFunctionsSum | renderer.c:39-42 | the three edge functions at any point add up to the triangle's edge function |
| Renderer.Trunc | renderer.c:71-74 | float-to-int conversion truncates toward zero |
| Renderer.Round | renderer.c:159-160 | `round` goes to the nearest integer, halves away from zero |
| Renderer.RMin | renderer.c:71-72 | `fmin` returns the smaller argument |
| Renderer.RMax | renderer.c:73-74 | `fmax` returns the larger argument |
| Renderer.ClampTexel | renderer.c:227-228 | a clamped texel coordinate lies in `[0, texDim - 1]` and is unchanged when already inside |
| Renderer.TexelInRange | renderer.c:230 | at clamped coordinates the texture read index lies in `[0, texDim * texDim)` |
| Renderer.RawTexelCoordInRange | renderer.c:124-125 | an interpolated coordinate in `[0, 1]` scales and rounds onto a texel without clamping |
| Renderer.InterpolateIs | renderer.c:219-222 | the loop's `s *= z` equals the perspective-correct interpolation |
| Renderer.ConvexInterpolation | renderer.c:105-112 | with positive depths and weights and uvs in `[0, 1]`, the depth is positive and the interpolated uvs stay in `[0, 1]` |
| Renderer.FlatDepth | renderer.c:112 | for a triangle at one depth `c`, weights summing to `sum` give depth `c / sum` |
| Renderer.Box2 | renderer.c:159-168 | the clipped box of `drawTriangle2`: the minimum is rounded, the maximum truncated, and every pixel in it is on screen |
| Renderer.EdgeSteps | renderer.c:233-240 | the accumulators step by `a12`, `a20`, `a01` per pixel and by `b12`, `b20`, `b01` per row, so at every pixel they equal `orient2D` plus the bias, with the biases assigned to the edges as written |
| Renderer.Bias | renderer.c:190-193 | the fill-convention offset as written: 0 when the edge coefficient `a` is negative, -1 otherwise (the top-left tie rule of renderer.c:194-196 is commented out) |
| Renderer.W0 | renderer.c:198 | the accumulator `w0` at pixel (x, y): `orient2D(v2, v3, p)` plus `bias0`, which is computed from `a01`; `EdgeSteps` ties it to the incremental loop and `SharedEdgeGap` shows the effect of the misplaced offset |
| Renderer.W1 | renderer.c:199 | the accumulator `w1`: `orient2D(v3, v1, p)` plus `bias1`, computed from `a12`; stated by `EdgeSteps` and `EdgeValuesSum` |
| Renderer.W2 | renderer.c:200 | the accumulator `w2`: `orient2D(v1, v2, p)` plus `bias2`, computed from `a20`; stated by `EdgeSteps` and `EdgeValuesSum` |
| Renderer.EdgeValuesSum | renderer.c:191-200 | the three accumulators add up to the triangle's `orient2D` plus the three biases |
| Renderer.FlatDepth2 | renderer.c:213 | for a triangle at one depth `c`, `drawTriangle2` stores `c` divided by that sum, not `c` |
| Renderer.TexelCoord | renderer.c:224-228 | the scaled, rounded and clamped coordinate lies in `[0, texDim - 1]` |
| Renderer.TexelIndex2 | renderer.c:219-230 | the texel `drawTriangle2` reads lies in the texture |
| Renderer.TexelIndex2Is | renderer.c:219-230 | the loop's texel index is `TexelIndex2` |
| Renderer.Draw2 | renderer.c:205-244 | the per-pixel update of `drawTriangle2` changes nothing outside its box and is idempotent |
| Renderer.Drawn2DepthNeverDecreases | renderer.c:215-217 | the depth test only lets greater depths in |
| Renderer.Shade2KeepsFarther | renderer.c:213-217 | as written, the test keeps the farther surface: on the screen triangle (0, 0), (10, 0), (0, 10) at pixel (1, 1), the copy at depth 1 stores 1/98 and the copy at depth 10 drawn after it stores 10/98, as if drawn alone |
| Renderer.FlatInverseDepth | renderer.c:213 | corrected test: a flat triangle at depth `c` has reciprocal depth `1 / c` at every pixel |
| Renderer.Shade2NearerKeepsNearest | renderer.c:213-231 | corrected test: of two flat triangles covering a pixel, the nearer one is what remains, in either drawing order |
| Renderer.SharedEdgeGap | renderer.c:190-200 | as written, the two halves of the square (0, 0), (10, 10) cut along its diagonal both fail an edge test at every pixel strictly inside the diagonal, so neither changes such a pixel |
| Renderer.EdgeTestsPartition | renderer.c:190-200 | with the offset taken from the edge itself and ties broken by the top-left rule, an edge and its reverse pass their tests at complementary pixel sets (integer vertices) |
| Renderer.SharedEdgeOnceFixed | renderer.c:190-200 | with the corrected offsets, every pixel strictly inside the shared diagonal is painted by exactly one of the two halves |
| Renderer.Drawn2Written | renderer.c:213-231 | a pixel changes exactly when it is in the box, all three accumulators are `>= 0` and the depth is greater; it then holds the interpolated depth and the clamped texel |
| Renderer.Shade2 | renderer.c:205-231 | one pixel of `drawTriangle2`: the stored depth becomes `DepthOf` and the colour the clamped texel when all three accumulators are `>= 0` and `DepthOf` is greater than the stored depth, otherwise the pixel is unchanged; stated by `Drawn2Written`, `Drawn2DepthNeverDecreases` and `Shade2KeepsFarther` |
| Renderer.DrawTriangle2Idempotent | renderer.c:215-217 | drawing a triangle twice leaves what drawing it once leaves, because the depth test is strict |
| Renderer.DrawTriangle2Frame_Monotone | renderer.c:205-244 | over the whole call no depth decreases, and no pixel outside the clipped box changes |
| Renderer.DrawTriangle2EmptyBox | renderer.c:173-174 | an empty clipped box leaves both buffers as they were |
| Renderer.ShadePixel2 | renderer.c:213-231 | the inner-loop body writes pixel (x, y) of both buffers as the depth test decides, and nothing else |
| Renderer.ScanRow2 | renderer.c:207-236 | the inner loop applies the per-pixel update to one row of the box |
| Renderer.ScanBox2 | renderer.c:198-244 | the two loops apply the per-pixel update to the whole box |
| Renderer.DrawTriangle2 | renderer.c:139-245 | `drawTriangle2` leaves the buffers as `DrawTriangle2Frame` of their old contents |
| Renderer.BoxRef | renderer.c:71-80 | the clipped box of `drawTriangle`: all four bounds truncated, and every pixel on screen |
| Renderer.InsideRefIsEdgeTest | renderer.c:85-97 | the inside test is "all three edge functions strictly positive"; inside, the area is positive and is their sum, so the `continue` never fires |
| Renderer.InsideRefIs | renderer.c:91-93 | the inside test as the loop writes it |
| Renderer.InsideRef | renderer.c:91-93 | the three strict inequalities of `drawTriangle`'s inside test; `InsideRefIsEdgeTest` states it is the three edge functions being positive |
| Renderer.ShadeRef | renderer.c:95-127 | what `drawTriangle` stores for a pixel it writes: the depth `1 / (w0*z1 + w1*z2 + w2*z3)` and the unclamped texel; `WeightsAre`, `DepthIs` and `TexelIndexRefIs` tie it to the C expressions |
| Renderer.PixelRef | renderer.c:91-127 | one pixel of `drawTriangle`: overwritten by `ShadeRef` when inside, whatever its stored depth, otherwise unchanged; stated by `DrawnRefIgnoresDepth` and `ShadePixelRef` |
| Renderer.WeightsNormalised | renderer.c:95-107 | inside, the weights divided by the area are positive and add up to 1 |
| Renderer.WeightsAre | renderer.c:105-107 | the loop's divided weights are the normalised weights |
| Renderer.DepthIs | renderer.c:112 | the loop's `1 / (w0*z1 + w1*z2 + w2*z3)` is the interpolated depth |
| Renderer.TexelIndexRefIs | renderer.c:121-127 | the loop's unclamped texel index is `TexelIndexRef` |
| Renderer.DrawRef | renderer.c:87-133 | the per-pixel update of `drawTriangle` changes nothing outside its box and is idempotent |
| Renderer.DrawnRefIgnoresDepth | renderer.c:114-119 | with the depth test commented out, an inside pixel is overwritten whatever it held, and any other pixel is kept |
| Renderer.DrawTriangleIdempotent | renderer.c:51-134 | drawing a triangle twice with `drawTriangle` leaves what drawing it once leaves |
| Renderer.RefReadyFromPositiveDepths | renderer.c:105-127 | positive depths and uvs in `[0, 1]` give, at every inside point, a defined depth and an unclamped texel inside the texture |
| Renderer.DrawableRefFromPositiveDepths | renderer.c:87-133 | such a triangle can be drawn over any box |
| Renderer.FlatDepthRef | renderer.c:105-112 | for a triangle at one depth `c`, `drawTriangle` stores exactly `c` |
| Renderer.OppositeOrientation | renderer.c:91-93 | where `drawTriangle` finds a pixel inside, `drawTriangle2` on the same vertices finds it outside; `drawTriangle2` on (v1, v3, v2) covers only points on the inner side of all three edges |
| Renderer.ShadePixelRef | renderer.c:91-128 | the inner-loop body writes pixel (x, y) of both buffers as the inside test decides, and nothing else |
| Renderer.ScanBoxRef | renderer.c:87-133 | the two loops apply the per-pixel update to the whole box |
| Renderer.DrawTriangle | renderer.c:51-134 | `drawTriangle` leaves the buffers as `DrawTriangleFrame` of their old contents |
| Renderer.FaceTrianglesProject | renderer.c:377-411 | triangle `i` has as its first, second and third vertex `localToRaster` of the positions at face `i`'s indices a, c and b, each with the uv stored at that same index |
| Renderer.RenderTrianglesNext | renderer.c:407-411 | one more face draws its triangle on what the earlier faces left, unless the back-face test culls it |
| Renderer.RenderTrianglesDepthNeverDecreases | renderer.c:359-428 | over a whole mesh, no depth decreases |
| Renderer.ProjectFace | renderer.c:377-396 | the three vertices built for face `f`, taken in the order (cv0, cv2, cv1), are that face's triangle: corners a, c, b projected, each with its own uv |
| Renderer.FaceTriangle | renderer.c:377-396 | the triangle `renderMesh` draws for a face: the projected corners a, c, b in that order, as `cv0`, `cv2`, `cv1` are passed at renderer.c:411; stated by `FaceTrianglesProject` |
| Renderer.Culled | renderer.c:409 | the back-face test on the triangle's vertices in the order renderMesh passes them; `RenderTrianglesNext` states that a culled face draws nothing |
| Renderer.RenderFace | renderer.c:409-413 | one iteration takes the buffers from the first `f` faces rendered to the first `f + 1`: the triangle is drawn unless the back-face test culls it |
| Renderer.RenderMesh | renderer.c:359-428 | `renderMesh` leaves the buffers as the faces' triangles drawn in order, corners (a, c, b), skipping the culled ones |
| LoadObj.NearIsAbs | loadobj.c:163-165 | the linear closeness test is `fabs(x - y) < 0.0001` |
| LoadObj.Abs | loadobj.c:163 | `fabs` is non-negative and is the argument or its negation |
| LoadObj.AlmostEqualsVec | loadobj.c:161-166 | no contract of its own; `NearIsAbs` ties it to `fabs`, and `AlmostEqualsReflexiveSymmetric` and `AlmostEqualsVecNotTransitive` state its properties |
| LoadObj.AlmostEqualsUV | loadobj.c:168-171 | no contract of its own; `NearIsAbs` ties it to `fabs`, and `AlmostEqualsReflexiveSymmetric` states its properties |
| LoadObj.AlmostEqualsReflexiveSymmetric | loadobj.c:161-171 | both almost-equal tests are reflexive and symmetric |
| LoadObj.AlmostEqualsVecNotTransitive | loadobj.c:161-166 | the vector test is not transitive, so welding is not an equivalence |
| LoadObj.FirstMatch | loadobj.c:192-202 | the search returns a face whose same slot matches the corner |
| LoadObj.FirstMatchIsFirst | loadobj.c:192-202 | no earlier face matches: the first match wins, and "not found" means no face matches |
| LoadObj.WeldCorner | loadobj.c:186-214 | a welded corner keeps the mesh well indexed, names an existing vertex, adds at most one vertex and never changes the faces |
| LoadObj.WeldCornerCases | loadobj.c:186-214 | a match reuses the first match's vertex and changes nothing; otherwise the corner is appended and indexed by the old vertex count mod 65536; the assert fails exactly when nothing matches and the count would reach 153636 |
| LoadObj.WeldCornerFaithful | loadobj.c:186-214 | while the count fits an `unsigned short`, the chosen index names a vertex almost equal to the corner in position, uv and normal |
| LoadObj.IndexWraps | loadobj.c:213 | past 65536 vertices the cast wraps: the vertex appended at index 65536 is indexed 0 |
| LoadObj.WithSlot | loadobj.c:199-273 | setting one slot of the face leaves the other two as they were |
| LoadObj.WeldFaceFrom | loadobj.c:184-279 | welding a face adds one face and at most one vertex per corner, keeps every index below the vertex count, and stays under both capacities |
| LoadObj.WeldFace | loadobj.c:184-279 | one face welded: its corners a, b, c in that order, then the face; `WeldFaceExtends` and `WeldFaceFaithful` state what it keeps and what it stores |
| LoadObj.WeldFaceExtends | loadobj.c:184-279 | welding a face only appends to the four arrays |
| LoadObj.WeldFaceFaithful | loadobj.c:184-279 | the added face names, in every corner, a vertex almost equal to that corner |
| LoadObj.WeldCornerExtends | loadobj.c:204-214 | a corner only appends |
| LoadObj.Weld | loadobj.c:184-279 | after `n` faces, there are `n` faces, every index is below the vertex count, there are at most `3n` vertices, and both counts are under the capacity asserts |
| LoadObj.WeldStep | loadobj.c:184-279 | each face extends the mesh welded before it |
| LoadObj.WeldThrough | loadobj.c:184-279 | the mesh once face `m` is welded into the result of the first `m` faces, or failure; `WeldNext` states it is `Weld` one face further |
| LoadObj.WeldExtends | loadobj.c:184-279 | vertex and face arrays are append-only: the mesh after `m` faces is a prefix of the mesh after `n >= m`, and a failed assert stays failed |
| LoadObj.CloseToExtends | loadobj.c:206-208 | appending never changes an existing vertex |
| LoadObj.FacesFaithfulStep | loadobj.c:276-277 | storing a faithful face keeps every earlier face faithful |
| LoadObj.WeldFaithfulStep | loadobj.c:184-279 | one more face keeps all faces faithful |
| LoadObj.WeldFaithful | loadobj.c:184-279 | while the vertex count fits an `unsigned short`, every corner of every face names a vertex almost equal to that corner's position, uv and normal |
| LoadObj.WeldNext | loadobj.c:184-279 | `Weld` one face further is welding that face, and a failure persists |
| LoadObj.BoundsPush | loadobj.c:281-312 | one more vertex moves both corners one step further |
| LoadObj.BoundsMinEncloses | loadobj.c:281-312 | the minimum corner bounds every vertex and the start value from below, and each component is the start's or some vertex's |
| LoadObj.BoundsMaxEncloses | loadobj.c:281-312 | the maximum corner bounds every vertex and the start value from above, and each component is the start's or some vertex's |
| LoadObj.FindVertex | loadobj.c:192-202 | the search loop finds a match exactly when `FirstMatch` does, and returns that face's slot |
| LoadObj.StoreVertex | loadobj.c:206-210 | the corner is stored after the filled part, and the count grows by one |
| LoadObj.WeldVertex | loadobj.c:186-214 | one corner of the C code does what `WeldCorner` says, and `ok` is false where the vertex assert fails |
| LoadObj.StoreFace | loadobj.c:276-277 | the face is stored after the filled part, and the face count grows by one |
| LoadObj.WeldFaceInto | loadobj.c:184-279 | one iteration of the face loop takes the arrays from `Weld(f)` to `Weld(f + 1)`, and `ok` is false exactly where an assert fails |
| LoadObj.WeldFaces | loadobj.c:184-279 | the face loop fills the arrays with `Weld` of all faces, and `ok` is false exactly where an assert fails |
| LoadObj.ComputeBounds | loadobj.c:281-312 | the bounding-box loop leaves the corners as the running minimum and maximum over the vertices, from their old values |
| LoadObj.CreateFinalGeometry | loadobj.c:173-313 | allocates the arrays, welds every face and grows the box; `ok` is false exactly where an assert would stop the program; otherwise the mesh holds `Weld` of all faces and the enclosing box |

## Left out

- `main.c`: the SDL window, the event loop, presentation and timing. It is not part of this model.
- `loadbmp.c`: file reading. It is not part of this model.
- `initMeshArrays` and `loadObj` (`loadobj.c`): parsing an OBJ file with `fgets`/`sscanf`/`fseek`. `CreateFinalGeometry` takes the parsed mesh as a value. That value has three corners per face, with every index in range.
- `drawTriangle3`: an unfinished block-based variant. It depends on `getRatio`, which is not part of this model.
- `toSRGB` and `sRGBToLinear` (`mymath.c`): built on `pow`.
- The SSE `Matrix44::TransformPoint` (`mymath.c`): it is commented out in the source.
- The profiling counters, the accumulated timings and the `printf` calls in `renderMesh` and `drawTriangle2`.
- Floating point: rounding, overflow, NaN and infinities. Every `float` is an exact `real`. The conversions to `int` are exact truncation and rounding.
- `sqrtf`, `tanf`, `sinf`, `cosf`: parameters of the model, not computed. `PositiveRoot` states the one fact used about `sqrtf`.
- Vec.Normalized: for the zero vector the model scales by 0, where C divides by zero.
- `isBackface`: a parameter of `RenderMesh`. Its definition is not part of this model.
- `rowPitch`: taken to be four bytes times `WIDTH` and dropped. Both buffers are `WIDTH * HEIGHT` arrays addressed `y * WIDTH + x`.
- Renderer.DrawTriangle2: requires non-zero vertex depths and a non-zero interpolation denominator at every pixel of the clipped box.
- Renderer.DrawTriangle: requires non-zero vertex depths. It also requires that every inside pixel of the box has a non-zero area, a defined depth and an unclamped texel inside the texture; C reads out of bounds otherwise. `DrawableRefFromPositiveDepths` derives this from positive depths and uvs in `[0, 1]`.
- Renderer.RenderMesh: requires that the faces' indices are within the vertex arrays, that the projected depths are non-zero, and that every face kept by the back-face test satisfies the `DrawTriangle2` precondition.
- Renderer.Shade2Nearer: the corrected depth test of "## Findings" is stated and proved per pixel only. `DrawTriangle2`, `DrawTriangle2Frame` and `RenderMesh` keep the test as the code writes it.
- Renderer.CoveredFixed: the corrected edge offsets of "## Findings" are stated and proved per edge and for one pair of triangles. `W0`, `W1`, `W2`, `DrawTriangle2` and `RenderMesh` keep the offsets as the code assigns them.
- Textures: read-only `seq<int>` of `texDim * texDim` texels.
- The texture pointer and the colour values: colours are opaque `int` texel values.
- LoadObj.CreateFinalGeometry: `malloc` failure is not modelled.
- LoadObj.CreateFinalGeometry: C leaves the new mesh's `aabbMin`/`aabbMax` as they were before the call. The model starts the box loop from those old values too, and does not assume them zero.
- LoadObj.ComputeBounds: the running corners are kept in locals and stored once after the loop. C updates the mesh fields one component at a time, with the same final values.
- LoadObj.CreateFinalGeometry: as in C, each call welds into freshly allocated arrays. Calling it once per sub-mesh (as `loadObj` does) is not modelled.
- The capacity asserts (`vertexCount < 153636`, `faceCount < 128343`): they stop the program in C. Here they give `ok = false`, and the mesh's contents after a failed assert are left unspecified.

## Findings

| source | as written | input that shows it | evidently intended | confidence | as-written member | corrected member |
|---|---|---|---|---|---|---|
| renderer.c:213-217 | `drawTriangle2` stores `1 / (w0*z1 + w1*z2 + w2*z3)` with edge values that are not divided by the area; for a flat triangle at depth `c` this is `c` over the edge sum, which grows with `c`, and the projection sends larger view depths to larger z (`ProjectionDepthRange`); the test `z > targetZ[x]` therefore lets the farther surface overwrite the nearer one | screen triangle (0, 0), (10, 0), (0, 10) at pixel (1, 1), edge sum 98: drawn at depth 1 the pixel holds 1/98, then drawn at depth 10 it holds 10/98 and the depth-10 texel | the nearer surface stays: the buffer holds the interpolated reciprocal depth, divided by the edge sum (a cleared buffer of zeros is infinitely far), and a greater reciprocal passes | medium; not executed | Renderer.Shade2KeepsFarther | Renderer.Shade2NearerKeepsNearest |
| renderer.c:190-200 | each accumulator takes the fill-rule offset of another edge: `w0` measures edge v2 to v3 but gets `bias0` from `a01`, `w1` measures v3 to v1 but gets `bias1` from `a12`, `w2` measures v1 to v2 but gets `bias2` from `a20`; the top-left tie rule is commented out | triangles (0, 0), (10, 0), (0, 10) and (10, 0), (10, 10), (0, 10), both of positive orientation, sharing the diagonal: at pixel (5, 5), and at every pixel strictly inside the diagonal, `w0` of the first and `w1` of the second are -1, so neither draw paints it | two triangles sharing an edge paint every pixel on it exactly once: each accumulator takes the offset of its own edge (`a12`/`b12`, `a20`/`b20`, `a01`/`b01`) with the top-left tie rule | medium; not executed | Renderer.SharedEdgeGap | Renderer.SharedEdgeOnceFixed |
