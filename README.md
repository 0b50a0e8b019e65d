# A verified model of the Ledzz slicer core

Ledzz/slicer is a browser-based slicer for resin (MSLA) 3D printers. It cuts a triangle mesh into horizontal layers and chains each layer's cut segments into contours. It can fill a layer with grid infill and rasterise the contours to a grayscale image. It writes the layers into a GOO printer file: a fixed-layout header, one 66-byte definition record per layer, and a run-length-encoded image block per layer. Underneath sits a small geometry kernel ported from Slic3r: integer and real points, line segments, 2D/3D bounding boxes, a 3×4 affine transformation matrix, a triangle mesh, and the print-bed `Model` with its objects, volumes, instances and materials.

This project restates that core in Dafny and proves what the code promises. One module per source file:

| module | file | source |
|---|---|---|
| `Wrappers`, `Bytes` | wrappers.dfy | `Option`/`Result`, the byte type and the little-endian DataView writes of src/export/goo.ts |
| `GooRle` | goo_rle.dfy | `encodeRLE` / `encodeRunLength` of src/export/goo.ts, with a decoder as their partner |
| `GooWriter` | goo_writer.dfy | the `GooFileGenerator` class of src/export/goo.ts, a cursor over an `array<byte>` |
| `Three` | three.dfy | the three.js value types the slicer and the infill use (Vector3, Plane, Box3) |
| `Slicer` | slicer.dfy | src/utils/slicer.ts |
| `GridInfill` | grid_infill.dfy | src/utils/infill/grid.ts |
| `Grayscale` | grayscale.dfy | src/export/toGrayscale.ts |
| `Points` | point.dfy | src/lib/slicer/Point.ts |
| `DirectionsParallel` | directions_parallel.dfy | src/lib/slicer/utils/directions_parallel.ts |
| `Lines` | line.dfy | src/lib/slicer/Line.ts |
| `BoundingBoxes` | bounding_box.dfy | src/lib/slicer/BoundingBox.ts |
| `Matrices` | transformation_matrix.dfy | src/lib/slicer/TransformationMatrix.ts |
| `Meshes` | triangle_mesh.dfy | src/lib/slicer/TriangleMesh.ts |
| `Models` | model.dfy | src/lib/slicer/Model.ts |

Code that changes state is modelled as the source writes it:
- classes with fields (`Point`, `Line`, `TransformationMatrix`, `TriangleMesh`, `ModelObject`, `Model`, `ModelMaterial`, `GooFileGenerator`);
- methods with `modifies` clauses;
- the source's loops, with invariants.

Each such method is proved against a specification function, and the properties are lemmas about those functions. Pure code (`trianglePlaneIntersection`, `directions_parallel`, `multiply`, the bounding-box queries) is modelled as functions.

Coordinates are Dafny `real`; IEEE rounding is not modelled. The `Point` constructor's `Math.round` is modelled exactly, and integer widths are written out where the source truncates (DataView int16/int32, `Uint8Array`).

Foreign code is passed in as parameters:
- three.js `Plane.intersectLine` (the `cut` parameters);
- `ModelInstance.transform_bounding_box` (`place`);
- the constructors of the declaration-only `ModelVolume` and `ModelInstance`, whose results are given.

Where verification showed that the code as written does not do what it evidently means, both versions are modelled (see Findings). The rest of the model uses the corrected version.

## Model

| member | source | states |
|---|---|---|
| `Points.Round` | src/lib/slicer/Point.ts:32-33 | Math.round lands within half a unit of its argument (halves rounded up) |
| `Points.RoundIntegral` | src/lib/slicer/Point.ts:32-33 | rounding an integer-valued coordinate leaves it unchanged |
| `Points.Rounded` | src/lib/slicer/Point.ts:29-38 | the coordinates a new Point stores are integers, each within half a unit of the given one, and exactly the given ones when those are already integers |
| `Points.Translated` | src/lib/slicer/Point.ts:71-74 | translating by (dx, dy) changes x by exactly dx and y by exactly dy |
| `Points.CcwAntisymmetric` | src/lib/slicer/Point.ts:241-243 | swapping the two reference points negates ccw |
| `Points.CcwDegenerate` | src/lib/slicer/Point.ts:241-243 | ccw is zero when the point equals either reference point |
| `Points.AlignToGridCoordAsWritten` | src/lib/slicer/Point.ts:313-319 | the coordinate rule as written: it fails with the assertion error exactly when spacing is not positive |
| `Points.AlignAsWrittenSkipsCell` | src/lib/slicer/Point.ts:316-317 | as written, -5 on a grid of pitch 5 is moved to -10, one cell too far |
| `Points.AlignToGridCoord` | src/lib/slicer/Point.ts:313-319 | fails exactly when spacing is not positive; otherwise the result r satisfies r <= coord < r + spacing |
| `Points.AlignedIsMultiple` | src/lib/slicer/Point.ts:313-319 | for an integer spacing of at least 1 the aligned coordinate is an integer multiple of the spacing |
| `Points.AlignAgreesOnNonNegative` | src/lib/slicer/Point.ts:316-318 | the as-written and the intended rule agree on every non-negative coordinate |
| `Points.Point.constructor` | src/lib/slicer/Point.ts:29-38 | the new point holds the rounded coordinates |
| `Points.Point.Scale` | src/lib/slicer/Point.ts:64-67 | both coordinates are multiplied by the factor, without rounding |
| `Points.Point.Translate` | src/lib/slicer/Point.ts:71-74 | the point moves by (dx, dy) |
| `Points.Point.TranslateBy` | src/lib/slicer/Point.ts:75-77 | translating by a vector moves the point by the vector's coordinates as they were before the move |
| `Points.Point.CoincidesWith` | src/lib/slicer/Point.ts:110-112 | true exactly when both coordinates are equal |
| `Points.CoincidesWithEquivalence` | src/lib/slicer/Point.ts:110-112 | coincides_with is reflexive, symmetric and transitive |
| `Points.Point.NearestPointIndex` | src/lib/slicer/Point.ts:121-142 | -1 exactly for an empty list, otherwise an index in range whose squared distance is at most that of every earlier candidate (ties go to the later index) and, unless the scan stopped on a distance below EPSILON, strictly below that of every later one |
| `Points.Point.NearestWaypointIndex` | src/lib/slicer/Point.ts:144-167 | the same guarantee for the squared distance to the candidate plus the candidate's squared distance to dest |
| `Points.Point.Ccw` | src/lib/slicer/Point.ts:233-245 | ccw(p1, p2) is the negation of the orientation taken with p1 and p2 swapped |
| `Points.Point.Negative` | src/lib/slicer/Point.ts:300-302 | for an integral point, the new point is exactly (-x, -y) |
| `Points.Point.VectorTo` | src/lib/slicer/Point.ts:304-306 | the intended vector_to (as written it throws, see Findings): for integral points, the new vector is exactly p - this |
| `Points.Point.VectorToAsWritten` | src/lib/slicer/Point.ts:304-306 | as written, vector_to fails on every pair of points, because `new Vector` names a type alias |
| `Points.Point.AlignToGrid` | src/lib/slicer/Point.ts:308-311 | fails unless both spacings are positive; x is aligned relative to base whenever the x spacing is positive, even when the y spacing then fails, and y is aligned only when both are |
| `Points.TranslateNegativeRestores` | src/lib/slicer/Point.ts:300-302 | translating by an integral vector and then by its negative returns the point to where it was |
| `Points.TranslateByVectorTo` | src/lib/slicer/Point.ts:304-306 | with the intended vector_to, p.translate(p.vector_to(q)) puts an integral p exactly on an integral q |
| `Points.Add` | src/lib/slicer/Point.ts:333-335 | the sum is integral, and exact for integral points |
| `Points.Subtract` | src/lib/slicer/Point.ts:337-339 | the difference is integral, and exact for integral points |
| `Points.Multiply` | src/lib/slicer/Point.ts:341-343 | the product is integral and each coordinate lies within half a unit of scalar times the original |
| `Points.Point3.constructor` | src/lib/slicer/Point.ts:348-351 | x and y are rounded as in Point; z is stored unchanged |
| `Points.Point3.CoincidesWith` | src/lib/slicer/Point.ts:353-355 | true exactly when all three coordinates are equal |
| `Points.Pointf.Scale` | src/lib/slicer/Point.ts:406-409 | both coordinates are multiplied by the factor |
| `Points.Pointf.Translate` | src/lib/slicer/Point.ts:413-420 | the point moves by exactly (dx, dy) |
| `Points.Pointf.Negative` | src/lib/slicer/Point.ts:440-442 | each coordinate of the result cancels the original's |
| `Points.Pointf.VectorTo` | src/lib/slicer/Point.ts:444-446 | the intended vector_to (as written it throws, see Findings): translating this point by vector_to(p) gives p |
| `Points.Pointf.VectorToAsWritten` | src/lib/slicer/Point.ts:444-446 | as written, vector_to fails on every pair of points, because `new Vectorf` names a type alias |
| `Points.Pointf.Divide` | src/lib/slicer/Point.ts:400-404 | scaling the quotient back by the scalar gives the original point |
| `Points.PointfAdd` | src/lib/slicer/Point.ts:453-455 | the sum is the first point translated by the second |
| `Points.PointfDivide` | src/lib/slicer/Point.ts:457-459 | scaling the quotient back by the scalar gives the original point |
| `Points.Pointf3.Scale` | src/lib/slicer/Point.ts:477-480 | all three coordinates are multiplied by the factor |
| `Points.Pointf3.Translate` | src/lib/slicer/Point.ts:484-495 | the point moves by exactly (dx, dy, dz) |
| `Points.Pointf3.Negative` | src/lib/slicer/Point.ts:504-506 | each coordinate of the result cancels the original's |
| `Points.Pointf3.VectorTo` | src/lib/slicer/Point.ts:508-510 | the intended vector_to (as written it throws, see Findings): translating this point by vector_to(p) gives p |
| `Points.Pointf3.VectorToAsWritten` | src/lib/slicer/Point.ts:508-510 | as written, vector_to fails on every pair of points, because `new Vectorf3` names a type alias |
| `Points.VectorAliasesThrow` | src/lib/slicer/Point.ts:322-323 | all three vector_to methods fail as written on every input, while the intended Pointf and Pointf3 ones return the vector that translates the receiver onto the argument |
| `Points.NegativeInvolution` | src/lib/slicer/Point.ts:504-506 | negating twice gives the original point |
| `Points.Pointf3TranslateBack` | src/lib/slicer/Point.ts:484-506 | translating by a vector and then by its negative restores the point |
| `Points.ConcatPrefix` | src/lib/slicer/Point.ts:517-523 | each item's points appear, in order and unbroken, at the offset given by the items before it |
| `Points.ToPoints` | src/lib/slicer/Point.ts:517-523 | the loop produces the items' point lists concatenated in order |
| `DirectionsParallel.Abs` | src/lib/slicer/utils/directions_parallel.ts:6 | Math.abs: non-negative and equal to the argument or its negation |
| `DirectionsParallel.ParallelSymmetric` | src/lib/slicer/utils/directions_parallel.ts:6-8 | the test does not depend on the order of the two angles |
| `DirectionsParallel.ParallelReflexive` | src/lib/slicer/utils/directions_parallel.ts:7-8 | with a non-negative max_diff every angle is parallel to itself |
| `DirectionsParallel.ParallelHalfTurn` | src/lib/slicer/utils/directions_parallel.ts:8 | angles a half turn apart are parallel, in either order |
| `DirectionsParallel.ParallelMonotone` | src/lib/slicer/utils/directions_parallel.ts:7-8 | raising max_diff never turns a parallel pair into a non-parallel one |
| `DirectionsParallel.NotParallel` | src/lib/slicer/utils/directions_parallel.ts:6-8 | angles whose difference is at least the tolerance away from both 0 and a half turn are not parallel |
| `Lines.CrossingOnBoth` | src/lib/slicer/Line.ts:115-140 | with a non-zero denominator, the point a + ua·(b - a) is also the point c + ub·(d - c) of the other line |
| `Lines.InfiniteCrossingOnOther` | src/lib/slicer/Line.ts:51-62 | the crossing computed from t1 lies on the other carrier line |
| `Lines.Line.constructor` | src/lib/slicer/Line.ts:6-9 | the line holds the two given endpoint objects themselves |
| `Lines.Line.Scale` | src/lib/slicer/Line.ts:11-14 | both endpoints are scaled in place; an endpoint object shared by both ends is scaled twice |
| `Lines.Line.Translate` | src/lib/slicer/Line.ts:16-19 | both endpoints move by (dx, dy); a shared endpoint object moves twice |
| `Lines.Line.Reverse` | src/lib/slicer/Line.ts:26-28 | the two endpoint references are exchanged, so reversing twice restores the line |
| `Lines.Line.Vector` | src/lib/slicer/Line.ts:100-102 | the intended vector() (as written it throws, see Findings): for integral endpoints, the vector is exactly b - a |
| `Lines.Line.VectorAsWritten` | src/lib/slicer/Line.ts:100-102 | as written, vector() fails on every line, because the imported `Vector` is a type alias |
| `Lines.Line.NormalAsWritten` | src/lib/slicer/Line.ts:103-105 | as written, normal() fails on every line, for the same reason as vector() |
| `Lines.Line.Normal` | src/lib/slicer/Line.ts:103-105 | the intended normal() (as written it throws): the normal is integral and, for integral endpoints, is the vector turned a quarter turn clockwise |
| `Lines.NormalPerpendicular` | src/lib/slicer/Line.ts:100-105 | with the intended vector() and normal(), for integral endpoints, normal() and vector() have dot product zero |
| `Lines.Line.CoincidesWith` | src/lib/slicer/Line.ts:66-68 | true exactly when a coincides with line.a and b with line.b, in that order |
| `Lines.Line.Intersection` | src/lib/slicer/Line.ts:114-145 | false whenever the denominator is below EPSILON in magnitude; true exactly when it is not and both parameters lie in [0, 1]; on success the out-point is a + ua·(b - a), otherwise it is untouched |
| `Lines.Line.IntersectionInfiniteAsWritten` | src/lib/slicer/Line.ts:51-52 | as written, intersection_infinite fails at its first statement, the call of vector_to, so it never returns and never writes the out-point |
| `Lines.LineVectorsThrow` | src/lib/slicer/Line.ts:51-54 | vector(), normal() and intersection_infinite fail as written on every line, while the intended vector and normal are always integral |
| `Lines.Line.IntersectionInfinite` | src/lib/slicer/Line.ts:51-64 | the intended intersection_infinite (as written it throws): false exactly when the cross product of the two direction vectors is below 1e-12 in magnitude; otherwise the out-point is a + t1·d1; on failure it is untouched |
| `Lines.InfiniteCrossingIntegral` | src/lib/slicer/Line.ts:51-62 | with the intended vectors, for integral lines the point intersection_infinite writes also lies on the other line |
| `Lines.Linef3.IntersectPlane` | src/lib/slicer/Line.ts:175-183 | for a non-horizontal segment, the result has the requested z and x, y interpolated linearly with the same parameter |
| `Lines.IntersectPlaneAtEnds` | src/lib/slicer/Line.ts:175-183 | cutting at either endpoint's height returns that endpoint |
| `Lines.IntersectPlaneAffine` | src/lib/slicer/Line.ts:175-183 | the cut at the mean of two heights is the midpoint of the two cuts |
| `BoundingBoxes.Min` | src/lib/slicer/BoundingBox.ts:45-46 | Math.min: at most both arguments and equal to one of them |
| `BoundingBoxes.Max` | src/lib/slicer/BoundingBox.ts:47-48 | Math.max: at least both arguments and equal to one of them |
| `BoundingBoxes.Lo` | src/lib/slicer/BoundingBox.ts:39-49 | the folded minimum of a coordinate is at most that coordinate of every point and is attained by one of them |
| `BoundingBoxes.Hi` | src/lib/slicer/BoundingBox.ts:39-49 | the folded maximum of a coordinate is at least that coordinate of every point and is attained by one of them |
| `BoundingBoxes.Extent` | src/lib/slicer/BoundingBox.ts:39-49 | the constructor's update loop ends with the least and the greatest value of the coordinate over all points |
| `BoundingBoxes.FromMinMax2` | src/lib/slicer/BoundingBox.ts:20-27 | the box keeps the given corner objects and is defined exactly when min < max strictly on x and on y |
| `BoundingBoxes.FromPoints2` | src/lib/slicer/BoundingBox.ts:30-52 | an empty list throws; otherwise the box is defined, holds copied corners and contains every point |
| `BoundingBoxes.FromPoints2Tight` | src/lib/slicer/BoundingBox.ts:39-49 | each of the four bounds of a point-list box is attained by one of the points |
| `BoundingBoxes.MergePoint2` | src/lib/slicer/BoundingBox.ts:57-69 | merging a point gives a defined box containing it: the degenerate copied box at the point when the box was undefined, the componentwise min and max otherwise |
| `BoundingBoxes.MergeBox2` | src/lib/slicer/BoundingBox.ts:79-90 | a defined box takes the componentwise min of mins and max of maxes; an undefined one copies the other's corners; either way it ends defined |
| `BoundingBoxes.MergeBox2Commutes` | src/lib/slicer/BoundingBox.ts:79-90 | merging two defined boxes spans the same rectangle in either order |
| `BoundingBoxes.MergeBox2Grows` | src/lib/slicer/BoundingBox.ts:79-90 | every point of the old box and every point of the other box lies in the merged box |
| `BoundingBoxes.MergePoints2` | src/lib/slicer/BoundingBox.ts:73-76 | merging a point list throws exactly when the list is empty; otherwise the box is defined and contains every point |
| `BoundingBoxes.Scale2` | src/lib/slicer/BoundingBox.ts:93-104 | both corners are multiplied by the factor on x and y, in either branch; the defined flag is kept |
| `BoundingBoxes.Translate2` | src/lib/slicer/BoundingBox.ts:119-130 | both corners move by (dx, dy), in either branch; the defined flag is kept |
| `BoundingBoxes.Offset2` | src/lib/slicer/BoundingBox.ts:132-135 | succeeds exactly when the corners are point objects with a translate method; then min moves by -d and max by +d on both axes |
| `BoundingBoxes.Size2` | src/lib/slicer/BoundingBox.ts:106-111 | min translated by the size is max |
| `BoundingBoxes.Center2` | src/lib/slicer/BoundingBox.ts:137-142 | the centre is equally far from min and max on each axis |
| `BoundingBoxes.Translate2KeepsSize` | src/lib/slicer/BoundingBox.ts:106-130 | translating a box leaves its size unchanged |
| `BoundingBoxes.Center2Inside` | src/lib/slicer/BoundingBox.ts:137-151 | the centre of a box with ordered corners passes contains, which is inclusive on x and y |
| `BoundingBoxes.Outline` | src/lib/slicer/BoundingBox.ts:304-310 | four points: min, (max.x, min.y), max, (min.x, max.y) |
| `BoundingBoxes.OutlineInside` | src/lib/slicer/BoundingBox.ts:304-310 | every outline point of a box with ordered corners passes contains |
| `BoundingBoxes.LinePoints` | src/lib/slicer/BoundingBox.ts:285-289 | the end points of the lines, a then b, line after line |
| `BoundingBoxes.BoundingBox.constructor` | src/lib/slicer/BoundingBox.ts:13-18 | a default-constructed box is undefined and holds no corners |
| `BoundingBoxes.BoundingBox.FromMinMax` | src/lib/slicer/BoundingBox.ts:20-27 | the box is the (min, max) box: defined only when min < max on x and y |
| `BoundingBoxes.BoundingBox.FromPoints` | src/lib/slicer/BoundingBox.ts:30-52 | throws exactly on an empty list; otherwise a fresh box whose loop-computed corners are the point-list box |
| `BoundingBoxes.BoundingBox.FromLines` | src/lib/slicer/BoundingBox.ts:281-295 | a line list gives the point-list box of all end points; an empty list throws |
| `BoundingBoxes.BoundingBox.MergePoint` | src/lib/slicer/BoundingBox.ts:57-69 | the new state is the merge of the point into the old state |
| `BoundingBoxes.BoundingBox.MergeBox` | src/lib/slicer/BoundingBox.ts:79-90 | the new state is the merge of the other box into the old state |
| `BoundingBoxes.BoundingBox.MergePoints` | src/lib/slicer/BoundingBox.ts:73-76 | throws exactly on an empty list and then leaves the box unchanged; otherwise the new state is the point-list merge |
| `BoundingBoxes.BoundingBox.Scale` | src/lib/slicer/BoundingBox.ts:93-104 | the new state is the scaled old state |
| `BoundingBoxes.BoundingBox.Translate` | src/lib/slicer/BoundingBox.ts:119-130 | the new state is the translated old state |
| `BoundingBoxes.BoundingBox.Offset` | src/lib/slicer/BoundingBox.ts:132-135 | widens the box as offset describes, or throws and leaves it unchanged when the corners are plain copies |
| `BoundingBoxes.BoundingBox.PolygonToRef` | src/lib/slicer/BoundingBox.ts:304-310 | the polygon's points are replaced by exactly the four outline corners, in order |
| `BoundingBoxes.FromMinMax3` | src/lib/slicer/BoundingBox.ts:164-169 | the 3D box keeps the given corners and is defined exactly when min < max on all three axes |
| `BoundingBoxes.FromPoints3` | src/lib/slicer/BoundingBox.ts:172-189 | an empty list throws; otherwise the box is defined, holds copied corners and contains every point on all three axes |
| `BoundingBoxes.FromPoints3Tight` | src/lib/slicer/BoundingBox.ts:180-188 | both z bounds of a point-list box are attained by one of the points |
| `BoundingBoxes.MergePoint3` | src/lib/slicer/BoundingBox.ts:194-201 | merging a point gives a defined box containing it on all three axes: the copied degenerate box when undefined, the componentwise min and max otherwise |
| `BoundingBoxes.MergeBox3` | src/lib/slicer/BoundingBox.ts:212-217 | a defined box takes the componentwise min and max on all three axes; an undefined one copies the other's corners |
| `BoundingBoxes.MergeBox3Commutes` | src/lib/slicer/BoundingBox.ts:212-217 | merging two defined boxes spans the same box in either order |
| `BoundingBoxes.MergeBox3Grows` | src/lib/slicer/BoundingBox.ts:212-217 | every point of either box lies in the merged box |
| `BoundingBoxes.Scale3AsWritten` | src/lib/slicer/BoundingBox.ts:93-104 | as written, a 3D box with copied corners is scaled on x and y only: its z range is unchanged |
| `BoundingBoxes.Scale3AsWrittenKeepsZ` | src/lib/slicer/BoundingBox.ts:97-103 | the point-list box of (1,1,1) and (2,2,2) scaled by 2 still has z range [1, 2] |
| `BoundingBoxes.Scale3` | src/lib/slicer/BoundingBox.ts:93-96 | corrected: both corners are scaled on all three axes, whatever the corners are |
| `BoundingBoxes.Translate3AsWritten` | src/lib/slicer/BoundingBox.ts:233-246 | as written, a 3D box with copied corners gets 2·dy added to min.y and nothing to max.y |
| `BoundingBoxes.Translate3AsWrittenInverts` | src/lib/slicer/BoundingBox.ts:237-245 | translating the unit point-list box by (0, 1, 0) leaves min.y = 2 above max.y = 1 |
| `BoundingBoxes.Translate3` | src/lib/slicer/BoundingBox.ts:233-236 | corrected: both corners move by (dx, dy, dz) |
| `BoundingBoxes.Offset3` | src/lib/slicer/BoundingBox.ts:248-251 | succeeds exactly when the corners are point objects; then min moves by -d and max by +d on every axis |
| `BoundingBoxes.Size3` | src/lib/slicer/BoundingBox.ts:220-224 | min translated by the size is max, on all three axes |
| `BoundingBoxes.Center3` | src/lib/slicer/BoundingBox.ts:253-257 | the centre is equally far from min and max on each of the three axes |
| `BoundingBoxes.Contains2` | src/lib/slicer/BoundingBox.ts:144-151 | a box that contains any point has its corners ordered on x and y |
| `BoundingBoxes.ContainsCorners2` | src/lib/slicer/BoundingBox.ts:144-151 | a box contains its own lower and upper corners exactly when they are ordered on x and y |
| `BoundingBoxes.Contains3` | src/lib/slicer/BoundingBox.ts:144-151 | the 3D box uses the inherited planar test: containing any point means the corners are ordered on x and y |
| `BoundingBoxes.ContainsCorners3` | src/lib/slicer/BoundingBox.ts:144-151 | a 3D box contains its own corners exactly when they are ordered on x and y, whatever their z |
| `BoundingBoxes.Contains3IgnoresZ` | src/lib/slicer/BoundingBox.ts:144-151 | the 3D box inherits the planar contains, so changing a point's z never changes the answer |
| `BoundingBoxes.Translate3KeepsSize` | src/lib/slicer/BoundingBox.ts:220-236 | translating a 3D box leaves its size unchanged |
| `BoundingBoxes.Offset3Widens` | src/lib/slicer/BoundingBox.ts:248-251 | offsetting by d widens the size by 2d on every axis |
| `BoundingBoxes.BoundingBox3.constructor` | src/lib/slicer/BoundingBox.ts:158-162 | a default-constructed 3D box is undefined and holds no corners |
| `BoundingBoxes.BoundingBox3.FromMinMax` | src/lib/slicer/BoundingBox.ts:164-169 | the planar test, then undefined whenever min.z >= max.z: the (min, max) 3D box |
| `BoundingBoxes.BoundingBox3.FromPoints` | src/lib/slicer/BoundingBox.ts:172-189 | throws exactly on an empty list; otherwise a fresh box whose loop-computed corners are the 3D point-list box |
| `BoundingBoxes.BoundingBox3.MergePoint` | src/lib/slicer/BoundingBox.ts:194-201 | z is merged first when defined, then x and y; the new state is the 3D point merge |
| `BoundingBoxes.BoundingBox3.MergeBox` | src/lib/slicer/BoundingBox.ts:212-217 | the new state is the 3D box merge |
| `BoundingBoxes.BoundingBox3.MergePoints` | src/lib/slicer/BoundingBox.ts:205-208 | throws exactly on an empty list and then leaves the box unchanged; otherwise merges the list's own box |
| `BoundingBoxes.BoundingBox3.Scale` | src/lib/slicer/BoundingBox.ts:93-96 | the new state is the corrected 3D scale of the old one |
| `BoundingBoxes.BoundingBox3.Translate` | src/lib/slicer/BoundingBox.ts:233-236 | the new state is the corrected 3D translation of the old one |
| `BoundingBoxes.BoundingBox3.Offset` | src/lib/slicer/BoundingBox.ts:248-251 | widens the box on every axis, or throws and leaves it unchanged when the corners are plain copies |
| `Matrices.TransformWeight` | src/lib/slicer/TransformationMatrix.ts:81-96 | transform(p, 1) is transform(p, 0) translated by the translation column, and transform(p, 0) ignores that column |
| `Matrices.ProductIdentity` | src/lib/slicer/TransformationMatrix.ts:102-128 | multiply(I, M) = M = multiply(M, I) |
| `Matrices.TransformProduct` | src/lib/slicer/TransformationMatrix.ts:102-128 | transforming by multiply(L, R) is transforming by R and then by L |
| `Matrices.MatEye` | src/lib/slicer/TransformationMatrix.ts:98-100 | mat_eye maps every point to itself and has determinant 1 |
| `Matrices.Translation` | src/lib/slicer/TransformationMatrix.ts:130-152 | mat_translation moves every point by (x, y, z) and leaves directions (w = 0) unchanged |
| `Matrices.TranslationsCompose` | src/lib/slicer/TransformationMatrix.ts:102-152 | multiply(mat_translation(a), mat_translation(b)) = mat_translation(a + b) |
| `Matrices.ScaleMat` | src/lib/slicer/TransformationMatrix.ts:154-169 | mat_scale multiplies each coordinate by its own factor |
| `Matrices.DetScale` | src/lib/slicer/TransformationMatrix.ts:154-169 | the determinant of mat_scale(x, y, z) is x·y·z |
| `Matrices.Mirror` | src/lib/slicer/TransformationMatrix.ts:228-242 | mat_mirror negates exactly the chosen coordinate |
| `Matrices.MirrorProperties` | src/lib/slicer/TransformationMatrix.ts:228-242 | a mirror has determinant -1 and composed with itself gives the identity |
| `Matrices.InverseAsWritten` | src/lib/slicer/TransformationMatrix.ts:28-49 | inverse as written: throws exactly when the determinant is 0, and the returned translation column is always zero |
| `Matrices.InverseAsWrittenDropsTranslation` | src/lib/slicer/TransformationMatrix.ts:35-48 | as written, the inverse of mat_translation(v) is the identity, so inverse times the translation is still the translation |
| `Matrices.Inverse` | src/lib/slicer/TransformationMatrix.ts:28-49 | corrected inverse: throws exactly when the determinant is 0; otherwise inverse times M is the identity |
| `Matrices.AffineInverseCancels` | src/lib/slicer/TransformationMatrix.ts:33-48 | the adjugate over the determinant, with translation column -A⁻¹·t, times M is the identity |
| `Matrices.InversesShareLinearPart` | src/lib/slicer/TransformationMatrix.ts:36-46 | the as-written and the corrected inverse have the same linear part and differ only in the translation column |
| `Matrices.InverseUndoesTransform` | src/lib/slicer/TransformationMatrix.ts:28-96 | for an invertible M, transforming by M and then by its inverse returns every point |
| `Matrices.TransformationMatrix.constructor` | src/lib/slicer/TransformationMatrix.ts:5-18 | the twelve entries are the arguments, each defaulting to the identity's |
| `Matrices.TransformationMatrix.Determinante` | src/lib/slicer/TransformationMatrix.ts:20-26 | the method agrees with the first-row cofactor expansion of the linear part |
| `Matrices.TransformationMatrix.InverseOf` | src/lib/slicer/TransformationMatrix.ts:28-49 | fails exactly when the determinant is 0; otherwise the result times this matrix is the identity |
| `Matrices.TransformationMatrix.Copy` | src/lib/slicer/TransformationMatrix.ts:51-64 | every entry becomes right's |
| `Matrices.TransformationMatrix.SetValue` | src/lib/slicer/TransformationMatrix.ts:51-64 | the twelve fields are overwritten with the given entries |
| `Matrices.TransformationMatrix.ApplyLeft` | src/lib/slicer/TransformationMatrix.ts:66-68 | this becomes left · this |
| `Matrices.TransformationMatrix.ApplyRight` | src/lib/slicer/TransformationMatrix.ts:74-76 | this becomes this · right |
| `Matrices.TransformationMatrix.MultiplyLeft` | src/lib/slicer/TransformationMatrix.ts:70-72 | the product maps each point p to left(this(p)); this is not modified |
| `Matrices.TransformationMatrix.MultiplyRight` | src/lib/slicer/TransformationMatrix.ts:77-79 | the product maps each point p to this(right(p)); this is not modified |
| `Matrices.TransformationMatrix.TransformPoint` | src/lib/slicer/TransformationMatrix.ts:81-96 | the method agrees with the affine map of the matrix at weight w |
| `Meshes.FoldBounds` | src/lib/slicer/TriangleMesh.ts:264-276 | the folded box holds every vertex, and each of its six bounds is a coordinate of some vertex |
| `Meshes.BoundsSpec` | src/lib/slicer/TriangleMesh.ts:255-277 | the bounding box holds every vertex and, for a non-empty mesh, every bound is attained by some vertex |
| `Meshes.BoundsUnique` | src/lib/slicer/TriangleMesh.ts:255-277 | any box that holds every vertex and whose bounds are all attained is the bounding box |
| `Meshes.CenterOf` | src/lib/slicer/TriangleMesh.ts:282-289 | the centre is equally far from min and max on each axis |
| `Meshes.BoundsOrdered` | src/lib/slicer/TriangleMesh.ts:255-300 | the mesh box has min <= max on every axis, so size() is non-negative and center() lies in the box |
| `Meshes.MulMono` | src/lib/slicer/TriangleMesh.ts:65-74 | multiplying by a non-negative factor keeps order and by a negative one reverses it |
| `Meshes.ScaledBetween` | src/lib/slicer/TriangleMesh.ts:65-74 | a coordinate between two bounds stays between the two scaled bounds, whatever the factor's sign |
| `Meshes.ScaledAttained` | src/lib/slicer/TriangleMesh.ts:65-74 | the scaled bounds are the scaled old bounds, exchanged for a negative factor |
| `Meshes.FoldTranslate` | src/lib/slicer/TriangleMesh.ts:79-84 | folding the translated vertices gives the folded box translated |
| `Meshes.BoundsTranslate` | src/lib/slicer/TriangleMesh.ts:79-84 | translate(x, y, z) shifts both corners of the bounding box by (x, y, z); an empty mesh keeps the zero box |
| `Meshes.ScaledInside` | src/lib/slicer/TriangleMesh.ts:65-74 | the scaled vertices lie in the componentwise-scaled box |
| `Meshes.ScaledExtremes` | src/lib/slicer/TriangleMesh.ts:65-74 | the vertices that attained the old bounds attain the scaled ones |
| `Meshes.BoundsScaleVector` | src/lib/slicer/TriangleMesh.ts:65-74 | scaleVector scales the bounding box componentwise, exchanging the bounds on an axis with a negative factor |
| `Meshes.BoundsScale` | src/lib/slicer/TriangleMesh.ts:51-60 | scale with a non-negative factor scales both corners of the bounding box |
| `Meshes.UniformScaledBox` | src/lib/slicer/TriangleMesh.ts:51-60 | a uniform non-negative scale of a box is the scale of its two corners |
| `Meshes.ScaleIsScaleVector` | src/lib/slicer/TriangleMesh.ts:51-74 | scale(f) moves every vertex as scaleVector([f, f, f]) does |
| `Meshes.MirrorPointIsMatMirror` | src/lib/slicer/TriangleMesh.ts:156-161 | the intended vertex mirror is the map of mat_mirror for the same axis |
| `Meshes.MirrorAsWrittenMovesNothing` | src/lib/slicer/TriangleMesh.ts:157-160 | as written, indexing the vertex tuple with the axis name changes no coordinate, so mirror leaves every vertex where it was, (1, 0, 0) under an x mirror included |
| `Meshes.MirrorProperties` | src/lib/slicer/TriangleMesh.ts:156-171 | the intended mirror negates and exchanges the bounds on the mirrored axis, and mirroring twice restores the vertices |
| `Meshes.MirrorPointInvolution` | src/lib/slicer/TriangleMesh.ts:156-161 | mirroring a vertex twice gives the vertex back |
| `Meshes.MirrorIsScaleVector` | src/lib/slicer/TriangleMesh.ts:156-161 | the intended mirror is a scaleVector by -1 on the axis and 1 on the others |
| `Meshes.MirrorScaledBox` | src/lib/slicer/TriangleMesh.ts:156-161 | the box scaled by the mirror factors is the mirrored box |
| `Meshes.MergeKeepsTriangles` | src/lib/slicer/TriangleMesh.ts:226-250 | merging keeps every face index below the vertex count, and each face, old or appended, still joins the same three points as in its own mesh |
| `Meshes.ReverseProperties` | src/lib/slicer/TriangleMesh.ts:364-371 | reversing the winding twice restores the faces, keeps exactly the valid faces valid, and keeps each face's corners with the last two exchanged |
| `Meshes.CubeFacesValid` | src/lib/slicer/TriangleMesh.ts:400-432 | the cube has 8 vertices and 12 faces, every index in 0..7 |
| `Meshes.CubeBounds` | src/lib/slicer/TriangleMesh.ts:400-432 | the cube's bounding box spans 0 and the side length on every axis, [0, x] x [0, y] x [0, z] for non-negative sides |
| `Meshes.ShiftToOrigin` | src/lib/slicer/TriangleMesh.ts:195-198 | shifting a box by minus its lower corner puts that corner at the origin and keeps its size |
| `Meshes.AlignedToOrigin` | src/lib/slicer/TriangleMesh.ts:195-198 | after alignToOrigin's translation the box's lower corner is the origin and its size is unchanged |
| `Meshes.AlignedToBed` | src/lib/slicer/TriangleMesh.ts:218-221 | after alignToBed's translation the lowest z is 0 and the x and y bounds are unchanged |
| `Meshes.HalfShiftCenters` | src/lib/slicer/TriangleMesh.ts:203-215 | a box at the origin shifted back by half its size is centred on the origin |
| `Meshes.HalfShiftedBounds` | src/lib/slicer/TriangleMesh.ts:203-215 | on a mesh whose box starts at the origin, the half-size shift centres the box on the origin and keeps its size |
| `Meshes.TriangleMesh.constructor` | src/lib/slicer/TriangleMesh.ts:14-18 | the mesh holds the given vertices and faces and is not repaired |
| `Meshes.TriangleMesh.Clone` | src/lib/slicer/TriangleMesh.ts:23-29 | a fresh mesh with equal vertices, faces and repaired flag |
| `Meshes.TriangleMesh.Swap` | src/lib/slicer/TriangleMesh.ts:34-46 | the two meshes exchange vertices, faces and repaired flag |
| `Meshes.TriangleMesh.InvalidateCache` | src/lib/slicer/TriangleMesh.ts:608-610 | only the repaired flag changes, to false |
| `Meshes.TriangleMesh.Scale` | src/lib/slicer/TriangleMesh.ts:51-60 | every vertex is scaled, faces are kept, the flag is cleared |
| `Meshes.TriangleMesh.ScaleVector` | src/lib/slicer/TriangleMesh.ts:65-74 | every vertex is scaled componentwise, faces are kept, the flag is cleared |
| `Meshes.TriangleMesh.Translate` | src/lib/slicer/TriangleMesh.ts:79-84 | every vertex is translated, faces are kept, the flag is cleared |
| `Meshes.TriangleMesh.TranslateVector` | src/lib/slicer/TriangleMesh.ts:89-91 | translation by the three components of the vector |
| `Meshes.TriangleMesh.Mirror` | src/lib/slicer/TriangleMesh.ts:156-171 | the axis coordinate of every vertex is negated (corrected map), the winding of every face is reversed, the flag is cleared |
| `Meshes.TriangleMesh.ReverseNormals` | src/lib/slicer/TriangleMesh.ts:364-371 | the second and third index of every face change places; vertices are kept; the flag is cleared |
| `Meshes.TriangleMesh.BoundingBox` | src/lib/slicer/TriangleMesh.ts:255-277 | the loop returns the mesh's bounding box: the zero box when empty, the tight box otherwise |
| `Meshes.TriangleMesh.Center` | src/lib/slicer/TriangleMesh.ts:282-289 | the centre of the bounding box, which lies inside it |
| `Meshes.TriangleMesh.Size` | src/lib/slicer/TriangleMesh.ts:294-301 | the extent of the bounding box, non-negative on every axis |
| `Meshes.TriangleMesh.AlignToOrigin` | src/lib/slicer/TriangleMesh.ts:195-198 | the mesh is translated by minus its lower corner, which puts the corner at the origin and keeps the size |
| `Meshes.TriangleMesh.CenterAroundOrigin` | src/lib/slicer/TriangleMesh.ts:203-215 | the vertices are moved by minus the old lower corner and then by minus half the old size; afterwards the centre is the origin and the size is unchanged; faces are kept |
| `Meshes.TriangleMesh.AlignToBed` | src/lib/slicer/TriangleMesh.ts:218-221 | the mesh is lowered or raised so that its lowest z is 0 |
| `Meshes.TriangleMesh.Merge` | src/lib/slicer/TriangleMesh.ts:226-250 | the other mesh's vertices are appended, its faces appended with every index raised by the old vertex count, and the flag cleared |
| `Meshes.TriangleMesh.Repair` | src/lib/slicer/TriangleMesh.ts:378-395 | the geometry is unchanged and the flag is set, whether or not it was already set |
| `Meshes.TriangleMesh.MakeCube` | src/lib/slicer/TriangleMesh.ts:400-432 | a fresh cube mesh with its 8 corners and 12 faces, marked repaired |
| `Models.Solids` | src/lib/slicer/Model.ts:583-592 | the non-modifier volumes form a sub-list of the volumes, with no modifier among them |
| `Models.FacetCount` | src/lib/slicer/Model.ts:583-592 | the count is zero exactly when every volume is a modifier or has no faces |
| `Models.FacetCountAppend` | src/lib/slicer/Model.ts:583-592 | the facet count of concatenated volume lists is the sum of their counts |
| `Models.FacetCountSolids` | src/lib/slicer/Model.ts:583-592 | modifier volumes contribute nothing: the count equals the count over the non-modifier volumes |
| `Models.RawBox` | src/lib/slicer/Model.ts:372-378 | the merged volume box, when defined, carries corners |
| `Models.PlacedBox` | src/lib/slicer/Model.ts:379-382 | the merged instance box, when defined, carries corners |
| `Models.RawBoxCovers` | src/lib/slicer/Model.ts:372-378 | the raw box is defined iff some volume is not a modifier, and then encloses the box of every non-modifier volume |
| `Models.PlacedBoxCovers` | src/lib/slicer/Model.ts:379-382 | the object box is defined iff there is an instance, and then encloses every instance's placement of the raw box |
| `Models.ConstructedInstancesAsWritten` | src/lib/slicer/Model.ts:280-320 | as written, the constructor never leaves a defined instance list; it fails exactly when it copies an object whose list is undefined (on `forEach`) or non-empty (on `push`) |
| `Models.InstancesAsWrittenNeverDefined` | src/lib/slicer/Model.ts:280-320 | as written, no constructed object gets an instance list, copying an object built the same way throws, and copying an object with one instance throws on the push, where the intended constructor copies it |
| `Models.ConstructedInstances` | src/lib/slicer/Model.ts:297-320 | the intended instance list: empty for a fresh object, the source's instances for a copy |
| `Models.CopyOf` | src/lib/slicer/Model.ts:297-320 | a copy keeps name, part number and cached box, holds the volumes only when asked, copies the instances, and its cache stays valid only if no volume was re-added |
| `Models.CopyKeepsGeometry` | src/lib/slicer/Model.ts:311-319 | a copy with volumes has the source's facet count, instances and raw box; a copy without volumes counts no facets |
| `Models.ModelObject.constructor` | src/lib/slicer/Model.ts:292-321 | a fresh object is empty with part number -1 and an invalid cache; a copy's state is CopyOf the source |
| `Models.ModelObject.AddVolume` | src/lib/slicer/Model.ts:328-333 | appends exactly the volume, invalidates the cache, changes nothing else and returns the volume |
| `Models.ModelObject.DeleteVolume` | src/lib/slicer/Model.ts:334-340 | fails with "Invalid volume index" exactly for an index outside the list, changing nothing; otherwise removes exactly that volume and invalidates the cache |
| `Models.ModelObject.ClearVolumes` | src/lib/slicer/Model.ts:341-344 | empties the volumes, invalidates the cache, nothing else changes |
| `Models.ModelObject.AddInstance` | src/lib/slicer/Model.ts:345-349 | appends exactly the instance and leaves everything else unchanged |
| `Models.ModelObject.DeleteInstance` | src/lib/slicer/Model.ts:350-355 | fails with "Invalid instance index" exactly for an index outside the list; otherwise removes exactly that instance |
| `Models.ModelObject.DeleteLastInstance` | src/lib/slicer/Model.ts:356-358 | fails exactly when there is no instance; otherwise drops the last one only |
| `Models.ModelObject.ClearInstances` | src/lib/slicer/Model.ts:359-361 | empties the instances, nothing else changes |
| `Models.ModelObject.InvalidateBoundingBox` | src/lib/slicer/Model.ts:368-370 | clears the validity flag only |
| `Models.ModelObject.UpdateBoundingBox` | src/lib/slicer/Model.ts:371-385 | stores the merge of every instance's placement of the merged non-modifier volume boxes and marks the cache valid |
| `Models.ModelObject.BoundingBox` | src/lib/slicer/Model.ts:362-367 | with a valid cache changes nothing; otherwise recomputes; either way returns the cached box and leaves it valid |
| `Models.ModelObject.FacetsCount` | src/lib/slicer/Model.ts:583-592 | returns the faces of the non-modifier volumes |
| `Models.BoundingBoxTwice` | src/lib/slicer/Model.ts:362-367 | two bounding_box calls return the same box, the second changing nothing |
| `Models.ModelMaterial.constructor` | src/lib/slicer/Model.ts:248-256 | the attributes are a copy of the other material's, or empty |
| `Models.ModelMaterial.Apply` | src/lib/slicer/Model.ts:262-266 | the attributes after apply are the old ones with each given entry set under its key, in order |
| `Models.AppliedSetsEntries` | src/lib/slicer/Model.ts:262-266 | after applying distinct keys, each key maps to its value, keys not given keep their values, and no other key appears |
| `Models.AppliedAsWritten` | src/lib/slicer/Model.ts:262-266 | as written, every given value becomes a key, and no key appears that is neither an old attribute nor a given value |
| `Models.ApplyAsWrittenSwaps` | src/lib/slicer/Model.ts:263-264 | as written, applying { color: red } stores color under the key red and leaves color unset |
| `Models.AnyWithoutInstances` | src/lib/slicer/Model.ts:121 | true iff some object in the list has no instance |
| `Models.Model.constructor` | src/lib/slicer/Model.ts:32-34 | a new model has no materials, objects or metadata |
| `Models.Model.Swap` | src/lib/slicer/Model.ts:51-55 | materials, objects and metadata are exchanged between the two models |
| `Models.Model.AddObject` | src/lib/slicer/Model.ts:80-84 | appends exactly one fresh object, built as the ModelObject constructor says, and returns it; materials and metadata unchanged |
| `Models.Model.Merge` | src/lib/slicer/Model.ts:75-79 | keeps the existing objects and appends one fresh copy, volumes included, of each of the other model's objects, in order |
| `Models.Model.DeleteObject` | src/lib/slicer/Model.ts:85-90 | fails with "Invalid object index" exactly for an index outside the list, changing nothing; otherwise removes exactly that object keeping the order |
| `Models.Model.ClearObjects` | src/lib/slicer/Model.ts:91-93 | empties the objects only |
| `Models.Model.GetMaterial` | src/lib/slicer/Model.ts:111-113 | returns the stored material iff the id is present, null otherwise |
| `Models.Model.AddMaterial` | src/lib/slicer/Model.ts:94-110 | with a source stores a fresh copy under the id; without one returns the stored material unchanged or stores and returns a fresh empty one |
| `Models.Model.DeleteMaterial` | src/lib/slicer/Model.ts:114-116 | removes that id only |
| `Models.Model.ClearMaterials` | src/lib/slicer/Model.ts:117-119 | empties the materials only |
| `Models.Model.HasObjectsWithNoInstances` | src/lib/slicer/Model.ts:120-122 | true iff some object has no instance |
| `Models.Model.AddDefaultInstances` | src/lib/slicer/Model.ts:123-132 | each object without instances gets exactly one, the others keep theirs; returns whether any was added; afterwards no object lacks an instance; every object keeps its name, part number, volumes and box |
| `Bytes.LE16` | src/export/goo.ts:555-558 | two bytes, low byte first, spelling the value modulo 2^16 |
| `Bytes.LE32` | src/export/goo.ts:560-563 | four bytes |
| `Bytes.LE32Value` | src/export/goo.ts:560-563 | the four bytes read back little-endian give the value modulo 2^32 |
| `Bytes.Zeros` | src/export/goo.ts:124-125 | n bytes, every one zero |
| `GooRle.Kind.Prefix` | src/export/goo.ts:450-480 | the prefix of a plain run has its low six bits clear and is not the differential class |
| `GooRle.Level` | src/export/goo.ts:506-524 | the number of extra length bytes is 0 exactly up to 15, at most 1 up to 0xFFF, at most 2 up to 0xFFFFF, and at most 3 |
| `GooRle.HeadFields` | src/export/goo.ts:508-520 | a first byte built from prefix, level and low nibble is a byte from which each field reads back |
| `GooRle.LengthDigits` | src/export/goo.ts:511-523 | as many extra length bytes as the level says |
| `GooRle.RunLength` | src/export/goo.ts:500-530 | one head byte, the level's extra bytes and, for the grey class only, the pixel value last |
| `GooRle.RunLengthFields` | src/export/goo.ts:506-524 | the head byte carries the colour class, the level and the low 4 bits of the count; the length bytes follow it |
| `GooRle.RunFrom` | src/export/goo.ts:443-446 | the counting loop stops at a count between its start and the end of the image |
| `GooRle.RunLen` | src/export/goo.ts:440-446 | a run is at least one pixel and does not pass the end of the image |
| `GooRle.RunLenMaximal` | src/export/goo.ts:443-446 | the run is a block of equal pixels followed by the end or a different pixel |
| `GooRle.RunLenUnique` | src/export/goo.ts:443-446 | every maximal block of equal pixels starting there is the run taken |
| `GooRle.RunCode` | src/export/goo.ts:448-481 | each run emits at least one byte |
| `GooRle.RunCodeClasses` | src/export/goo.ts:448-481 | black runs take class 00, white runs class 11, others the differential class exactly when it applies and the grey class otherwise; the first run is never differential |
| `GooRle.EncodeFrom` | src/export/goo.ts:439-485 | the token stream is empty exactly when no pixel is left |
| `GooRle.Checksum` | src/export/goo.ts:488-492 | the trailing byte is the sum of the token bytes modulo 256 |
| `GooRle.EncodeFraming` | src/export/goo.ts:430-495 | an encoded layer starts with 0x55, ends with the mod-256 sum of the bytes between, and is two bytes long exactly for an empty image |
| `GooRle.RunCodeAsWritten` | src/export/goo.ts:448-481 | the code as written emits at least one number per run |
| `GooRle.ToUint8` | src/export/goo.ts:494 | the Uint8Array conversion keeps the length and reduces each entry modulo 256 |
| `GooRle.RunCodeAgrees` | src/export/goo.ts:454-477 | where a run's count fits a byte, the encoder as written and the corrected one emit the same bytes |
| `GooRle.ParseToken` | src/export/goo.ts:500-530 | a token read consumes between one byte and the whole input |
| `GooRle.Repeat` | src/export/goo.ts:443-446 | n copies of the pixel |
| `GooRle.Prepend` | src/export/goo.ts:439-485 | a run placed before the rest succeeds exactly when the rest decodes |
| `GooRle.ParseRunLength` | src/export/goo.ts:500-530 | reading a plain token back gives its pixel and its full count and consumes exactly its bytes |
| `GooRle.ParseDiff` | src/export/goo.ts:456-473 | reading a differential token back gives the signed step from the previous pixel and the count |
| `GooRle.DecodeRunCode` | src/export/goo.ts:448-481 | decoding one run's tokens yields that run, then the decoding of what follows |
| `GooRle.DecodeEncodeFrom` | src/export/goo.ts:439-485 | the token stream from any position decodes to exactly the rest of the image |
| `GooRle.DecodeEncode` | src/export/goo.ts:430-495 | decoding an encoded layer (magic byte, tokens, checksum) gives back the image |
| `GooRle.RunsDiffer` | src/export/goo.ts:443-446 | the pixel after a run differs from the run's pixel |
| `GooRle.RunLengthsCover` | src/export/goo.ts:439-485 | the run lengths are all positive and add up to the number of pixels |
| `GooRle.AsWrittenLosesPixels` | src/export/goo.ts:462-463 | as written, a 257-pixel image whose second run is a 256-pixel differential run encodes to 41 0A 91 00 and decodes to one pixel |
| `GooRle.CountRun` | src/export/goo.ts:443-446 | the counting loop returns the run's length |
| `GooRle.ChecksumLoop` | src/export/goo.ts:488-491 | `ChecksumLoop` returns the mod-256 sum of every byte after the magic byte |
| `GooRle.EncodeRLE` | src/export/goo.ts:430-495 | encodeRLE returns the encoded layer, magic byte, tokens and checksum |
| `GooWriter.Splice` | src/export/goo.ts:548-553 | storing bytes into the buffer keeps its length |
| `GooWriter.SpliceIs` | src/export/goo.ts:548-553 | storing x at a position replaces exactly that stretch of the buffer with x |
| `GooWriter.SpliceContents` | src/export/goo.ts:548-553 | after the store the stretch holds x and every other byte is unchanged |
| `GooWriter.SpliceAt` | src/export/goo.ts:548-553 | each byte after a store comes from x inside the stretch and from the old buffer elsewhere |
| `GooWriter.SpliceAppend` | src/export/goo.ts:548-553 | two writes one after the other equal one write of their concatenation |
| `GooWriter.SplicePatch` | src/export/goo.ts:286-291 | re-writing a stretch inside an earlier write replaces just that stretch |
| `GooWriter.Float32.Bytes` | src/export/goo.ts:565-568 | a float field is four bytes |
| `GooWriter.Pad` | src/export/goo.ts:534-546 | writeString produces exactly `length` bytes |
| `GooWriter.PadContents` | src/export/goo.ts:536-542 | the padded string holds the string's bytes up to the length and zeros after the string |
| `GooWriter.BoolByte` | src/export/goo.ts:570-573 | true is stored as 1 and false as 0 |
| `GooWriter.Words` | src/export/goo.ts:582-591 | a preview of n words takes 2n bytes |
| `GooWriter.WordsStep` | src/export/goo.ts:587-590 | each loop step appends the next word little-endian |
| `GooWriter.PreviewBytes` | src/export/goo.ts:119-141 | a preview field is the data's words, or the zero placeholder of the given size, plus the 2-byte delimiter |
| `GooWriter.IdentityBytes` | src/export/goo.ts:83-99 | header fields 1-5 take 92 bytes |
| `GooWriter.PrinterBytes` | src/export/goo.ts:101-108 | header fields 6-8 take 96 bytes |
| `GooWriter.LevelsBytes` | src/export/goo.ts:110-117 | header fields 9-11 take 6 bytes |
| `GooWriter.MachineBytes` | src/export/goo.ts:143-156 | header fields 16-20 take 10 bytes |
| `GooWriter.PlatformBytes` | src/export/goo.ts:158-174 | header fields 21-26 take 21 bytes |
| `GooWriter.TimingsBytes` | src/export/goo.ts:176-198 | header fields 27-34 take 32 bytes |
| `GooWriter.LiftBytes` | src/export/goo.ts:200-213 | header fields 35-39 take 20 bytes |
| `GooWriter.RetractBytes` | src/export/goo.ts:215-225 | header fields 40-43 take 16 bytes |
| `GooWriter.SecondLiftBytes` | src/export/goo.ts:227-237 | header fields 44-47 take 16 bytes |
| `GooWriter.SecondRetractBytes` | src/export/goo.ts:239-249 | header fields 48-51 take 16 bytes |
| `GooWriter.PowerBytes` | src/export/goo.ts:251-261 | header fields 52-55 take 9 bytes |
| `GooWriter.StatisticsBytes` | src/export/goo.ts:263-273 | header fields 56-59 take 20 bytes |
| `GooWriter.FrontBytes` | src/export/goo.ts:83-141 | header fields 1-15 take 194 bytes plus the two previews |
| `GooWriter.SettingsBytes` | src/export/goo.ts:143-198 | header fields 16-34 take 63 bytes |
| `GooWriter.MotionBytes` | src/export/goo.ts:200-249 | header fields 35-51 take 68 bytes |
| `GooWriter.TailBytes` | src/export/goo.ts:251-273 | header fields 52-59 take 29 bytes |
| `GooWriter.FieldsBytes` | src/export/goo.ts:83-273 | header fields 1-59 take 160 bytes more than fields 1-15 |
| `GooWriter.HeaderSuffix` | src/export/goo.ts:275-284 | header fields 60-62 take 7 bytes |
| `GooWriter.HeaderSettingsTail` | src/export/goo.ts:280-284 | header fields 61-62 take 3 bytes |
| `GooWriter.WithOffset` | src/export/goo.ts:275-290 | the header is its fields, 4 offset bytes and the trailing fields |
| `GooWriter.HeaderIsWithOffset` | src/export/goo.ts:286-290 | the stored header carries as offset the position where it ends |
| `GooWriter.PatchOffset` | src/export/goo.ts:277-291 | writing a zero placeholder and later storing the offset over it gives the header with the real offset |
| `GooWriter.HeaderLayout` | src/export/goo.ts:82-292 | the offset field sits 7 bytes before the header's end and reads back as the end position modulo 2^32; without previews the header is 195,477 bytes, and each given preview changes that by its own size |
| `GooWriter.LayerPositionBytes` | src/export/goo.ts:316-329 | layer fields 1-5 take 18 bytes |
| `GooWriter.LayerLiftBytes` | src/export/goo.ts:331-344 | layer fields 6-10 take 20 bytes |
| `GooWriter.LayerRetractBytes` | src/export/goo.ts:346-362 | layer fields 11-16 take 24 bytes |
| `GooWriter.LayerEndBytes` | src/export/goo.ts:364-368 | layer fields 17-18 take 4 bytes |
| `GooWriter.LayerDefinitionBytes` | src/export/goo.ts:297-369 | a layer definition record takes 66 bytes |
| `GooWriter.LayerDefinitionLayout` | src/export/goo.ts:297-369 | a layer definition is 66 bytes ending in the 0x0D 0x0A delimiter |
| `GooWriter.LayerImageLayout` | src/export/goo.ts:374-390 | the image block is 4 + encoded + 2 bytes; its prefix reads back as the encoded length; the encoded layer and the delimiter follow |
| `GooWriter.LayerImageDecodes` | src/export/goo.ts:374-390 | the encoded block inside a layer image record decodes back to the image |
| `GooWriter.GooFileGenerator.Saved` | src/export/goo.ts:409 | the saved bytes are exactly as many as the cursor position |
| `GooWriter.GooFileGenerator.constructor` | src/export/goo.ts:11-18 | a fresh zero-filled buffer of totalSize bytes with the cursor at 0 |
| `GooWriter.GooFileGenerator.WriteUint8Array` | src/export/goo.ts:548-553 | stores the bytes from the cursor on and advances the cursor by their number |
| `GooWriter.GooFileGenerator.WriteString` | src/export/goo.ts:534-546 | stores the zero-padded prefix of the string and advances by the length |
| `GooWriter.GooFileGenerator.WriteInt16` | src/export/goo.ts:555-558 | stores the value as 16-bit little-endian and advances by 2 |
| `GooWriter.GooFileGenerator.WriteInt32` | src/export/goo.ts:560-563 | stores the value as 32-bit little-endian and advances by 4 |
| `GooWriter.GooFileGenerator.WriteFloat` | src/export/goo.ts:565-568 | stores the float's four bytes and advances by 4 |
| `GooWriter.GooFileGenerator.WriteBool` | src/export/goo.ts:570-573 | stores 1 or 0 and advances by 1 |
| `GooWriter.GooFileGenerator.WriteDelimiter` | src/export/goo.ts:575-580 | stores 0x0D 0x0A and advances by 2 |
| `GooWriter.GooFileGenerator.WritePreviewImage` | src/export/goo.ts:582-591 | stores each word little-endian and advances by twice the word count |
| `GooWriter.GooFileGenerator.WriteIdentity` | src/export/goo.ts:83-99 | stores header fields 1-5 at the cursor and advances past them |
| `GooWriter.GooFileGenerator.WritePrinter` | src/export/goo.ts:101-108 | stores header fields 6-8 and advances past them |
| `GooWriter.GooFileGenerator.WriteLevels` | src/export/goo.ts:110-117 | stores header fields 9-11 and advances past them |
| `GooWriter.GooFileGenerator.WriteMachine` | src/export/goo.ts:143-156 | stores header fields 16-20 and advances past them |
| `GooWriter.GooFileGenerator.WritePlatform` | src/export/goo.ts:158-174 | stores header fields 21-26 and advances past them |
| `GooWriter.GooFileGenerator.WriteTimings` | src/export/goo.ts:176-198 | stores header fields 27-34 and advances past them |
| `GooWriter.GooFileGenerator.WriteLift` | src/export/goo.ts:200-213 | stores header fields 35-39 and advances past them |
| `GooWriter.GooFileGenerator.WriteRetract` | src/export/goo.ts:215-225 | stores header fields 40-43 and advances past them |
| `GooWriter.GooFileGenerator.WriteSecondLift` | src/export/goo.ts:227-237 | stores header fields 44-47 and advances past them |
| `GooWriter.GooFileGenerator.WriteSecondRetract` | src/export/goo.ts:239-249 | stores header fields 48-51 and advances past them |
| `GooWriter.GooFileGenerator.WritePower` | src/export/goo.ts:251-261 | stores header fields 52-55 and advances past them |
| `GooWriter.GooFileGenerator.WriteStatistics` | src/export/goo.ts:263-273 | stores header fields 56-59 and advances past them |
| `GooWriter.GooFileGenerator.WriteFront` | src/export/goo.ts:83-141 | stores header fields 1-15 and advances past them |
| `GooWriter.GooFileGenerator.WriteSettings` | src/export/goo.ts:143-198 | stores header fields 16-34 and advances past them |
| `GooWriter.GooFileGenerator.WriteMotion` | src/export/goo.ts:200-249 | stores header fields 35-51 and advances past them |
| `GooWriter.GooFileGenerator.WriteTail` | src/export/goo.ts:251-273 | stores header fields 52-59 and advances past them |
| `GooWriter.GooFileGenerator.WriteFields` | src/export/goo.ts:83-273 | stores header fields 1-59 and advances past them |
| `GooWriter.GooFileGenerator.WritePreview` | src/export/goo.ts:119-141 | stores the preview words, or the zero placeholder, then the delimiter |
| `GooWriter.GooFileGenerator.WriteHeader` | src/export/goo.ts:23-292 | stores the whole header, whose offset field holds the position where the header ends, and leaves the cursor there |
| `GooWriter.GooFileGenerator.WriteTrailer` | src/export/goo.ts:275-284 | stores a zero offset placeholder and header fields 61-62 |
| `GooWriter.GooFileGenerator.PatchInt32` | src/export/goo.ts:286-291 | stores an int32 at the saved position and leaves the cursor where it was |
| `GooWriter.GooFileGenerator.WriteLayerPosition` | src/export/goo.ts:316-329 | stores layer fields 1-5 and advances past them |
| `GooWriter.GooFileGenerator.WriteLayerLift` | src/export/goo.ts:331-344 | stores layer fields 6-10 and advances past them |
| `GooWriter.GooFileGenerator.WriteLayerRetract` | src/export/goo.ts:346-362 | stores layer fields 11-16 and advances past them |
| `GooWriter.GooFileGenerator.WriteLayerEnd` | src/export/goo.ts:364-368 | stores layer fields 17-18 and advances past them |
| `GooWriter.GooFileGenerator.WriteLayerDefinition` | src/export/goo.ts:297-369 | stores the 66-byte layer definition and advances past it |
| `GooWriter.GooFileGenerator.WriteLayerImageData` | src/export/goo.ts:374-390 | stores the length prefix, the encoded layer and a delimiter, and advances past them |
| `GooWriter.GooFileGenerator.WriteEndingString` | src/export/goo.ts:395-402 | stores the fixed 18-byte ending and advances by 18 |
| `GooWriter.GooFileGenerator.SaveFile` | src/export/goo.ts:407-425 | returns exactly the bytes written so far |
| `Slicer.Sign` | src/utils/slicer.ts:115 | the sign is 1, -1 or 0 exactly for a positive, negative or zero distance |
| `Slicer.TrianglePlaneIntersection` | src/utils/slicer.ts:108-130 | a triangle yields a segment exactly when its vertex signs are not all equal but two of them agree, and the segment joins the cuts of the two edges whose ends differ in sign, in edge order |
| `Slicer.StraddlingTriangleIsCut` | src/utils/slicer.ts:112-125 | a triangle with vertices strictly on both sides of the plane and none on it is always cut |
| `Slicer.Segments` | src/utils/slicer.ts:54-76 | the first n triangles yield at most n segments |
| `Slicer.SegmentsSource` | src/utils/slicer.ts:58-73 | the k-th segment is the cut of some triangle with index at least k, so the order of the triangles is kept |
| `Slicer.FindIntersections` | src/utils/slicer.ts:54-76 | the stride-9 loop returns the cuts of the triangles, in order, with uncut triangles skipped |
| `Slicer.UsedBeforeSnoc` | src/utils/slicer.ts:146-191 | closing a new contour does not change which segments the earlier contours used |
| `Slicer.BoundedCard` | src/utils/slicer.ts:149 | a set of indices below n has at most n elements |
| `Slicer.FullRangeCard` | src/utils/slicer.ts:149 | a set holding every index below n has at least n elements |
| `Slicer.FullRange` | src/utils/slicer.ts:149 | a set of n indices all below n holds every index below n |
| `Slicer.FirstUnused` | src/utils/slicer.ts:151-153 | returns the lowest unused index |
| `Slicer.FindConnection` | src/utils/slicer.ts:168-186 | returns the first unused segment touching the last point, or -1 exactly when no unused segment touches it |
| `Slicer.FlattenSnoc` | src/utils/slicer.ts:189-190 | the used indices after closing a contour are the earlier ones followed by the contour's |
| `Slicer.ExtendUsed` | src/utils/slicer.ts:176-183 | marking a fresh index used keeps the used set equal to the list of distinct used indices |
| `Slicer.ExtendChain` | src/utils/slicer.ts:175-183 | appending the far end of a touching segment extends a chain |
| `Slicer.GrowStep` | src/utils/slicer.ts:168-186 | one extension step keeps the growing-contour invariant |
| `Slicer.GrowContour` | src/utils/slicer.ts:157-187 | the do-while grows a chain from the start segment, uses each segment at most once, and stops only when no unused segment touches the last point |
| `Slicer.CloseContour` | src/utils/slicer.ts:189-190 | pushing a finished contour keeps the invariant of the outer loop |
| `Slicer.ConnectSegments` | src/utils/slicer.ts:137-194 | no segments give no contours; otherwise every contour is a chain, each starts at the lowest unused segment, stops only when nothing unused touches its end, and every segment is used exactly once |
| `Slicer.PointCountChains` | src/utils/slicer.ts:157-190 | the contours hold one point more per contour than the segments they used |
| `Slicer.PointCountConnected` | src/utils/slicer.ts:137-194 | the contours hold as many points as there are segments plus contours, and each contour has at least two points |
| `Slicer.Ceil` | src/utils/slicer.ts:28 | Math.ceil: the least integer not below x |
| `Slicer.LayerCount` | src/utils/slicer.ts:27-28 | the fewest layers of the given height whose stack reaches the model's height |
| `Slicer.HorizontalPlane` | src/utils/slicer.ts:39 | the plane's distance to a point is the point's y minus the height |
| `Slicer.CreateLayer` | src/utils/slicer.ts:38-52 | the layer's contours chain the segments of the soup cut at the given height |
| `Slicer.SliceAsWritten` | src/utils/slicer.ts:18-36 | as written, slice returns one layer, at the bottom of the model, whatever its height |
| `Slicer.SliceAsWrittenDropsLayers` | src/utils/slicer.ts:28-30 | a 1 mm model needs five 0.2 mm layers |
| `Slicer.Slice` | src/utils/slicer.ts:18-36 | the intended slice returns layerCount layers, layer i at the bottom plus i layer heights, each chaining its cut |
| `Slicer.LayersWithinModel` | src/utils/slicer.ts:27-31 | for a model of positive height every layer lies within the model and the layers together reach its top |
| `GridInfill.Shift` | src/utils/infill/grid.ts:54-56 | a cloned plane with its constant moved keeps the normal and moves every point's distance by the same amount |
| `GridInfill.StepCountStops` | src/utils/infill/grid.ts:53-64 | every step before the count passes the loop test and the step at the count is the first to fail |
| `GridInfill.ScanDown` | src/utils/infill/grid.ts:53-64 | the first loop pushes the planes first - 5i for as long as bounds.max is on or above them, and each pushed plane has bounds.max on or above it |
| `GridInfill.ScanUp` | src/utils/infill/grid.ts:65-77 | the second loop pushes the planes first + 5i for as long as bounds.min is on or below them, and each pushed plane has bounds.min on or below it |
| `GridInfill.GridPlanesAsWritten` | src/utils/infill/grid.ts:49-77 | as written, the planes are the first plane, then both loops counted from i = 0 |
| `GridInfill.AsWrittenRepeatsFirstPlane` | src/utils/infill/grid.ts:49-77 | as written, when the box straddles the first plane both loops push it again, so it appears three times |
| `GridInfill.GridPlanes` | src/utils/infill/grid.ts:49-77 | the intended planes: the first plane, then both loops counted from i = 1 |
| `GridInfill.GridPlanesDistinct` | src/utils/infill/grid.ts:49-77 | the intended planes are the first plane shifted by 0, -5, -10, ... and then +5, +10, ..., no two alike |
| `GridInfill.EdgeHits` | src/utils/infill/grid.ts:86-97 | the first k edges of a contour give at most k intersections |
| `GridInfill.ClosingEdgeCut` | src/utils/infill/grid.ts:87-88 | the closing edge, from the last point back to the first, is cut too, and its intersection comes last |
| `GridInfill.ContourHits` | src/utils/infill/grid.ts:84-99 | the edge loop returns the intersections of the contour's edges, in edge order |
| `GridInfill.CollectHits` | src/utils/infill/grid.ts:82-102 | the map, filter and flat return every contour's intersections, contour after contour |
| `GridInfill.Insert` | src/utils/infill/grid.ts:106-108 | inserting a point into a sorted list keeps it sorted and adds exactly that point |
| `GridInfill.SortedCons` | src/utils/infill/grid.ts:106-108 | a point no farther than every point of a sorted list can head it |
| `GridInfill.SortBy` | src/utils/infill/grid.ts:106-108 | the sort returns a permutation of its input, sorted by the key |
| `GridInfill.SortByFar` | src/utils/infill/grid.ts:104-108 | the intersections are permuted into order of distance from the far point (-1000, 0, 1000) |
| `GridInfill.Pairs` | src/utils/infill/grid.ts:109-118 | points 2k and 2k + 1 form segment k; a trailing odd point is dropped |
| `GridInfill.PairsOrdered` | src/utils/infill/grid.ts:104-118 | on sorted points each segment runs away from the far point, and each segment starts no nearer than the previous one ends |
| `GridInfill.PairUp` | src/utils/infill/grid.ts:109-118 | the pairing loop appends exactly the pairs of the sorted points to the lines |
| `GridInfill.PassLinesSnoc` | src/utils/infill/grid.ts:79-119 | one more plane appends its own pairs after those of the earlier planes |
| `GridInfill.PassLinesFromHits` | src/utils/infill/grid.ts:79-119 | every infill segment joins two intersections of one of the planes with the contours |
| `GridInfill.PassPlane` | src/utils/infill/grid.ts:79-119 | one plane's callback appends the pairs of its sorted intersections to the lines |
| `GridInfill.GridPass` | src/utils/infill/grid.ts:31-120 | gridPass appends, plane after plane, the pairs of every plane through the layer |
| `GridInfill.LinesAssoc` | src/utils/infill/grid.ts:117 | pushing onto the shared lines list is concatenation |
| `GridInfill.PassAll` | src/utils/infill/grid.ts:79-119 | planes.forEach appends each plane's pairs in plane order |
| `GridInfill.FirstPlane` | src/utils/infill/grid.ts:42-45 | the first plane passes through the origin |
| `GridInfill.GridInfillLines` | src/utils/infill/grid.ts:4-29 | gridInfill returns the lines of one pass along the normalised (1, 0, 1), whatever the density |
| `Grayscale.ScaleCentre` | src/export/toGrayscale.ts:26-27 | the model's centre maps to pixel floor(pixels / 2) |
| `Grayscale.ScaleInRange` | src/export/toGrayscale.ts:26-27 | every coordinate within half the original extent of the centre maps to a pixel inside the canvas |
| `Grayscale.ScaleMonotone` | src/export/toGrayscale.ts:26-27 | the mapping never reverses the order of two coordinates |
| `Grayscale.FillColor` | src/export/toGrayscale.ts:20 | the polygon at index 0 gets the polygon colour, every other the background colour |
| `Grayscale.DefaultColors` | src/export/toGrayscale.ts:10-11 | by default the first polygon is 255 and the others are 0 |
| `Grayscale.PixelPath` | src/export/toGrayscale.ts:24-33 | one pixel per vertex, each the scaled vertex |
| `Grayscale.TracePolygon` | src/export/toGrayscale.ts:24-33 | the vertex loop returns each vertex scaled to pixels, in order |
| `Grayscale.PolygonsToGrayscale` | src/export/toGrayscale.ts:3-37 | the canvas is cleared to the background colour, then one path per polygon is filled, in order, in its FillColor |

## Left out

- Floating point: coordinates are exact reals, so IEEE 754 rounding, NaN and Infinity are not modelled. Where the source would divide by zero and carry on with NaN or Infinity, the model requires a nonzero divisor instead. This applies to `Grayscale.PolygonsToGrayscale` (extents), `Lines.Linef3.IntersectPlane` (a.z ≠ b.z) and `Points.Pointf.Divide` (scalar ≠ 0).
- Trigonometry and square roots have no exact real model:
  - `Point.rotate`/`rotated`, `distance_to`, `perp_distance_to`, `ccw_angle` and `projection_onto`;
  - `Line.rotate`, `length`, `midpoint`, `point_at`, `orientation`, `direction`, `atan2_`, `extend_start`/`extend_end`, `distance_to` and `parallel_to`;
  - `mat_rotation` and `mat_rotation_quaternion`;
  - `TriangleMesh.rotate*`, `volume`, `calculateNormals`, `makeCylinder` and `makeSphere`;
  - `BoundingBox.radius` and `rotated`.
- `Point.coincides_with_epsilon`, `equals`, `nearest_point` and `nearest_waypoint` are left out. They are thin wrappers over the modelled index searches and exact equality, or epsilon variants of them.
- `Point.toString`, `wkt` and `dump_perl` and the other string renderings are left out: they are text formatting only.
- `Point.ccw(line)` is modelled only through the two-point form it delegates to, and `Line.ccw(point)` is left out for the same reason.
- `Pointf`, `Pointf3` and the bounding-box corners are modelled as values. Aliasing between corner objects and the points they were built from is not modelled. The source's distinction between corners taken from the caller and copied corners is kept as a flag, because it decides which branch `translate`, `scale` and `offset` take.
- TranslateByVectorTo (`Points.TranslateByVectorTo`) is stated of the intended vector_to. As written vector_to throws on every input (see Findings), so the source promises nothing there.
- NormalPerpendicular (`Lines.NormalPerpendicular`) is stated of the intended vector() and normal(), which throw as written (see Findings).
- InfiniteCrossingIntegral (`Lines.InfiniteCrossingIntegral`) is stated of the intended intersection_infinite, which throws as written (see Findings).
- The bounding-box operations below require the box to have corners, because a default-constructed box has no corners at all, and the model has no value for coordinate-less corners. The TypeError the source raises there, and the `{}` corners a merge can leave, are not modelled.
- MergeBox2 (`BoundingBoxes.MergeBox2`) requires the merged box to have corners. In the source (BoundingBox.ts:79-90) merging a default-constructed box into a defined one throws a TypeError reading `bb.min.x`, and merging it into an undefined one marks the result defined around empty `{}` corners.
- MergeBox3 (`BoundingBoxes.MergeBox3`) requires the merged box to have corners, for the reasons given for MergeBox2 (BoundingBox.ts:211-217).
- Scale2 (`BoundingBoxes.Scale2`) requires corners: on a default-constructed box the source's `"scale" in this.min` throws a TypeError (BoundingBox.ts:94).
- Scale3AsWritten (`BoundingBoxes.Scale3AsWritten`) requires corners, for the reason given for Scale2.
- Scale3 (`BoundingBoxes.Scale3`) requires corners, for the reason given for Scale2.
- Translate2 (`BoundingBoxes.Translate2`) requires corners: on a default-constructed box the source's `"translate" in this.min` throws a TypeError (BoundingBox.ts:120).
- Translate3AsWritten (`BoundingBoxes.Translate3AsWritten`) requires corners: the source's `"translate" in this.min` throws a TypeError on a default-constructed box (BoundingBox.ts:234).
- Translate3 (`BoundingBoxes.Translate3`) requires corners, for the reason given for Translate3AsWritten.
- Size2 (`BoundingBoxes.Size2`) requires corners: the source reads `this.max.x` of undefined and throws a TypeError (BoundingBox.ts:106-111).
- Size3 (`BoundingBoxes.Size3`) requires corners, for the reason given for Size2 (BoundingBox.ts:220-224).
- Center2 (`BoundingBoxes.Center2`) requires corners: the source reads `this.max.x` of undefined and throws a TypeError (BoundingBox.ts:137-142).
- Center3 (`BoundingBoxes.Center3`) requires corners, for the reason given for Center2 (BoundingBox.ts:252-256).
- Contains2 (`BoundingBoxes.Contains2`) requires corners: the source reads `this.min.x` of undefined and throws a TypeError (BoundingBox.ts:144-151).
- Contains3 (`BoundingBoxes.Contains3`) requires corners, for the reason given for Contains2.
- Outline (`BoundingBoxes.Outline`) requires corners: polygonToRef reads `this.min.x` of undefined and throws a TypeError on a default-constructed box (BoundingBox.ts:304-310).
- MergeBox (`BoundingBoxes.BoundingBox.MergeBox`) requires the merged box to have corners, for the reasons given for MergeBox2.
- Scale (`BoundingBoxes.BoundingBox.Scale`) requires corners, for the reason given for Scale2.
- Translate (`BoundingBoxes.BoundingBox.Translate`) requires corners, for the reason given for Translate2.
- PolygonToRef (`BoundingBoxes.BoundingBox.PolygonToRef`) requires corners, for the reason given for Outline.
- MergeBox (`BoundingBoxes.BoundingBox3.MergeBox`) requires the merged box to have corners, for the reasons given for MergeBox2.
- Scale (`BoundingBoxes.BoundingBox3.Scale`) requires corners, for the reason given for Scale2.
- Translate (`BoundingBoxes.BoundingBox3.Translate`) requires corners, for the reason given for Translate3AsWritten.
- VolumeBoxesSet and PlacementSet (`Models.VolumeBoxesSet`, `Models.PlacementSet`) are required by `Models.RawBox`, `Models.PlacedBox`, `Models.ObjectBox`, `Models.ModelObject.UpdateBoundingBox`, `Models.ModelObject.BoundingBox` and `Models.BoundingBoxTwice`: every volume box, and every box an instance places, must carry corners, or the merges would throw or leave `{}` corners as described for MergeBox2.
- `ThickLine`, `Linef` and `Linef3.scale` are left out: they are constructors and a scale with no behaviour beyond their fields.
- `EPSILON` is never defined: src/lib/slicer/utils/directions_parallel.ts uses it without importing it, and src/lib/slicer/Line.ts imports it from src/lib/slicer/types.ts, which does not declare it. The model takes it as a fixed positive constant.
- The per-axis wrappers `mirrorX`/`mirrorY`/`mirrorZ` are left out: each is a one-line call of `mirror`. The `console.warn` messages of `repair` and the stubs are left out too, since they are console output.
- These `TriangleMesh` members are left out:
  - `get_transformed_bounding_box`, `getTransformedMesh` and `transform`, which need three.js matrices;
  - the members whose bodies are TODO stubs.
- Sharing between the source's vertex and face arrays is not modelled: the mesh's arrays are sequences.
- src/lib/slicer/utils/axis.ts is not part of this model: an axis is one of x, y and z.
- These parts of Model.ts are left out:
  - `read_from_file` (file I/O) and the `Model` copy constructor;
  - `Model.bounding_box`, `repair`, `split`, `center_instances_around_point`, `align_instances_to_origin`, `translate`, `mesh` and `raw_mesh`, which build meshes through three.js or the mesh transforms;
  - the `ModelObject` geometry operations (`mesh`, `raw_mesh`, `translate`, `scale`, rotations, `center_around_origin`), the config, the layer-height ranges and spline, `trafo_obj`, and the `model` back-references.
- `ModelVolume` and `ModelInstance` are taken as given values, and `ModelInstance.transform_bounding_box` is the `place` parameter. Their own behaviour is not modelled.
- GOO output:
  - `writeFloat` writes the binary32 bit pattern of IEEE 754-2008 section 3.4, which the model takes as an opaque 4-byte word;
  - the RGB565 preview words are opaque 2-byte words;
  - strings are taken as already UTF-8 encoded bytes (RFC 3629 section 3);
  - the `Blob` and download plumbing of `saveFile` and the demo `generateSampleGooFile` are left out: `SaveFile` returns `buffer[0..position)`.
- `GooWriter.GooFileGenerator.WriteUint8Array`, `WriteString`, `WriteInt16`, `WriteInt32`, `WriteFloat`, `WriteBool` and `WriteDelimiter`, and the emitters built on them, require room left in the buffer. The `RangeError` the DataView raises past the end is not modelled.
- `GooRle.DecodeEncode` and `GooWriter.LayerImageDecodes` require the image to be at most 0xFFFFFFF pixels long. A longer run does not fit the 28-bit run length.
- `Slicer.FindIntersections` requires the position buffer length to be a multiple of 9. A trailing partial triangle would read `undefined` coordinates in the source.
- `Slicer.Slice` takes the mesh as its position buffer and the model bounds as given values. Three.js `Box3.setFromObject`, `rotateX`, `Plane.intersectLine` (the `cut` parameter) and the debug helpers `debugPoint`/`debugPlane` are foreign calls. `contourToLines` does rendering only.
- `GridInfill.GridInfillLines` cannot compute `Vector3(1, 0, 1).normalize()` because it needs a square root. The model takes 1/√2 as a parameter `invSqrt2` with the one property it needs, 2·invSqrt2² = 1. The `density` parameter is unused in the source, and so in the model.
- Canvas drawing in toGrayscale is modelled as the list of path commands and fill colours it issues. The rasterisation itself is left out.
- Workers, the React UI, the STL reader and manifold-3d are left out: they are I/O or foreign code.

## Findings

| source | as written | input that shows it | evidently intended | confidence | as-written member | corrected member |
|---|---|---|---|---|---|---|
| src/export/goo.ts:462-472 | a differential run pushes its count with no 4-bit or 8-bit mask, and the `Uint8Array` conversion at line 494 keeps only the low 8 bits | the pixel 10 followed by 256 pixels of 11 encodes to 41 0A 91 00, which decodes to the single pixel 10 | differential mode only for counts the byte can hold, so that decoding the encoding gives the image back | not executed | `GooRle.AsWrittenLosesPixels` | `GooRle.DecodeEncode` |
| src/utils/slicer.ts:30 | the layer loop runs `for (let i = 0; i < 1; i++)` | a 1 mm model at 0.2 mm layers gets 1 layer | ceil(height / layerHeight) layers, layer i at min + i·layerHeight | not executed | `Slicer.SliceAsWrittenDropsLayers` | `Slicer.Slice` |
| src/utils/infill/grid.ts:49-77 | the first plane is pushed, and then both loops start again at i = 0 | a box that straddles the first plane gets that plane three times | each plane once: the first plane, then the ones at i ≥ 1 in each direction | not executed | `GridInfill.AsWrittenRepeatsFirstPlane` | `GridInfill.GridPlanes` |
| src/lib/slicer/Point.ts:316-317 | negative coordinates use floor((coord − spacing + 1) / spacing) on reals | align_to_grid_coord(−5, 5) gives −10 | the largest multiple of spacing not above coord, which is −5 | not executed | `Points.AlignAsWrittenSkipsCell` | `Points.AlignToGridCoord` |
| src/lib/slicer/BoundingBox.ts:243 | the 3D fallback adds y to `min.y` twice and never to `max.y` | the unit box translated by (0, 1, 0) has min.y = 2 above max.y = 1 | both corners shifted by (x, y, z) | not executed | `BoundingBoxes.Translate3AsWrittenInverts` | `BoundingBoxes.Translate3` |
| src/lib/slicer/BoundingBox.ts:97-103 | the fallback scales x and y only, and the 3D box inherits it | the box [1,2]³ scaled by 2 keeps z in [1, 2] | z scaled as well | not executed | `BoundingBoxes.Scale3AsWrittenKeepsZ` | `BoundingBoxes.Scale3` |
| src/lib/slicer/TransformationMatrix.ts:39-47 | the inverse's translation column is 0 | the inverse of mat_translation(x, y, z) is the identity, which does not undo the translation | the affine inverse, with translation −A⁻¹·t | not executed | `Matrices.InverseAsWrittenDropsTranslation` | `Matrices.Inverse` |
| src/lib/slicer/TriangleMesh.ts:159 | a vertex tuple is indexed with the axis name, so no coordinate changes | mirroring the vertex (1, 0, 0) along x leaves it at (1, 0, 0) | the chosen coordinate negated | not executed | `Meshes.MirrorAsWrittenMovesNothing` | `Meshes.TriangleMesh.Mirror` |
| src/lib/slicer/Point.ts:304-323 | `Vector`, `Vectorf` and `Vectorf3` are declared only as type aliases, yet the three vector_to methods construct them with `new` | p.vector_to(q) for any two points throws a ReferenceError | build the alias's class, Point, Pointf or Pointf3, holding q − p | not executed | `Points.VectorAliasesThrow` | `Points.Pointf.VectorTo` |
| src/lib/slicer/Line.ts:100-105 | vector() and normal() call `new Vector` on the type alias imported from Point.ts at line 1, and intersection_infinite (lines 51-54) starts with vector_to | vector() of the line from (0, 0) to (1, 0) throws, and so does any intersection_infinite call | a Point holding b − a, and its quarter turn for normal() | not executed | `Lines.LineVectorsThrow` | `Lines.Line.Vector` |
| src/lib/slicer/Model.ts:263-264 | `forEach` passes (value, key) but the callback names them (key, value) | applying { color: red } stores color under the key red | each given value stored under its own key | not executed | `Models.ApplyAsWrittenSwaps` | `Models.ModelMaterial.Apply` |
| src/lib/slicer/Model.ts:280 | the `instances` field is declared but never initialised | a fresh object has no instance list; copying it throws on `forEach`, and copying an object with one instance throws on `push` | a fresh object starts with an empty list, and a copy gets the source's instances | not executed | `Models.InstancesAsWrittenNeverDefined` | `Models.ConstructedInstances` |
