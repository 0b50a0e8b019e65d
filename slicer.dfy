// The slicing steps of src/utils/slicer.ts: the sign test that cuts one
// triangle with a plane, the stride-9 scan over a triangle soup, the greedy
// chaining of cut segments into contours, and the layer-height arithmetic.
// three.js's Plane.intersectLine is foreign: it is the parameter `cut`.

module Slicer {
  import opened Wrappers
  import opened Three

  /** A cut segment, [start, end]. */
  type Segment = (Vector3, Vector3)

  /** Math.sign. */
  function Sign(d: real): (s: int)
    ensures s == 1 <==> d > 0.0
    ensures s == -1 <==> d < 0.0
    ensures s == 0 <==> d == 0.0
  {
    if d > 0.0 then 1 else if d < 0.0 then -1 else 0
  }

  /**
   * trianglePlaneIntersection: an edge is cut when its two vertices lie on
   * different sides of the plane (or one of them on it); the triangle yields
   * a segment only when exactly two of its three edges are cut.
   */
  function TrianglePlaneIntersection(p1: Vector3, p2: Vector3, p3: Vector3, plane: Plane,
                                     cut: (Vector3, Vector3, Plane) -> Vector3): (r: Option<Segment>)
    ensures var s1, s2, s3 := Sign(DistanceToPoint(plane, p1)), Sign(DistanceToPoint(plane, p2)),
                              Sign(DistanceToPoint(plane, p3));
      (r.Some? <==> !(s1 == s2 && s2 == s3) && (s1 == s2 || s2 == s3 || s3 == s1)) &&
      (r.Some? && s1 == s2 ==> r.value == (cut(p2, p3, plane), cut(p3, p1, plane))) &&
      (r.Some? && s2 == s3 ==> r.value == (cut(p1, p2, plane), cut(p3, p1, plane))) &&
      (r.Some? && s3 == s1 ==> r.value == (cut(p1, p2, plane), cut(p2, p3, plane)))
  {
    var s1, s2, s3 := Sign(DistanceToPoint(plane, p1)), Sign(DistanceToPoint(plane, p2)),
                      Sign(DistanceToPoint(plane, p3));
    var points := (if s1 != s2 then [cut(p1, p2, plane)] else [])
                + (if s2 != s3 then [cut(p2, p3, plane)] else [])
                + (if s3 != s1 then [cut(p3, p1, plane)] else []);
    if |points| == 2 then Some((points[0], points[1])) else None
  }

  /** A triangle with one vertex strictly on each side and none on the plane is always cut. */
  lemma StraddlingTriangleIsCut(p1: Vector3, p2: Vector3, p3: Vector3, plane: Plane,
                                cut: (Vector3, Vector3, Plane) -> Vector3)
    requires DistanceToPoint(plane, p1) != 0.0 && DistanceToPoint(plane, p2) != 0.0
    requires DistanceToPoint(plane, p3) != 0.0
    requires DistanceToPoint(plane, p1) < 0.0 || DistanceToPoint(plane, p2) < 0.0 || DistanceToPoint(plane, p3) < 0.0
    requires DistanceToPoint(plane, p1) > 0.0 || DistanceToPoint(plane, p2) > 0.0 || DistanceToPoint(plane, p3) > 0.0
    ensures TrianglePlaneIntersection(p1, p2, p3, plane, cut).Some?
  {
  }

  // ----- findIntersections: the position buffer read in strides of 9 -----

  /** Triangle t of a flat position buffer, vertices (9t..9t+2), (9t+3..9t+5), (9t+6..9t+8). */
  function TriangleAt(position: seq<real>, t: nat): (Vector3, Vector3, Vector3)
    requires 9 * t + 9 <= |position|
  {
    var i := 9 * t;
    (Vector3(position[i], position[i + 1], position[i + 2]),
     Vector3(position[i + 3], position[i + 4], position[i + 5]),
     Vector3(position[i + 6], position[i + 7], position[i + 8]))
  }

  function CutTriangle(position: seq<real>, t: nat, plane: Plane,
                       cut: (Vector3, Vector3, Plane) -> Vector3): Option<Segment>
    requires 9 * t + 9 <= |position|
  {
    var (a, b, c) := TriangleAt(position, t);
    TrianglePlaneIntersection(a, b, c, plane, cut)
  }

  /** The segments of the first n triangles, in triangle order, cut-less triangles skipped. */
  function Segments(position: seq<real>, n: nat, plane: Plane,
                    cut: (Vector3, Vector3, Plane) -> Vector3): (r: seq<Segment>)
    requires 9 * n <= |position|
    ensures |r| <= n
  {
    if n == 0 then []
    else
      var prev := Segments(position, n - 1, plane, cut);
      match CutTriangle(position, n - 1, plane, cut)
      case Some(s) => prev + [s]
      case None => prev
  }

  /** Every segment found is the cut of one triangle, and later segments come from later triangles. */
  lemma {:induction false} SegmentsSource(position: seq<real>, n: nat, plane: Plane,
                                          cut: (Vector3, Vector3, Plane) -> Vector3, k: nat)
    requires 9 * n <= |position|
    requires k < |Segments(position, n, plane, cut)|
    ensures exists t :: k <= t < n && CutTriangle(position, t, plane, cut) == Some(Segments(position, n, plane, cut)[k])
  {
    var prev := Segments(position, n - 1, plane, cut);
    if k < |prev| {
      SegmentsSource(position, n - 1, plane, cut, k);
      var t :| k <= t < n - 1 && CutTriangle(position, t, plane, cut) == Some(prev[k]);
      assert Segments(position, n, plane, cut)[k] == prev[k];
    } else {
      assert CutTriangle(position, n - 1, plane, cut) == Some(Segments(position, n, plane, cut)[k]);
    }
  }

  /** findIntersections over a triangle soup (three coordinates per vertex, three vertices per triangle). */
  method FindIntersections(position: seq<real>, plane: Plane, cut: (Vector3, Vector3, Plane) -> Vector3)
    returns (intersections: seq<Segment>)
    requires |position| % 9 == 0
    ensures intersections == Segments(position, |position| / 9, plane, cut)
  {
    intersections := [];
    var i := 0;
    while i < |position|
      invariant i % 9 == 0 && i <= |position|
      invariant intersections == Segments(position, i / 9, plane, cut)
    {
      var p1 := Vector3(position[i], position[i + 1], position[i + 2]);
      var p2 := Vector3(position[i + 3], position[i + 4], position[i + 5]);
      var p3 := Vector3(position[i + 6], position[i + 7], position[i + 8]);
      var line := TrianglePlaneIntersection(p1, p2, p3, plane, cut);
      assert CutTriangle(position, i / 9, plane, cut) == line;
      if line.None? {
        i := i + 9;
        continue;
      }
      intersections := intersections + [line.value];
      i := i + 9;
    }
  }

  // ----- connectSegments: greedy chaining of segments into contours -----

  /** The tolerance of isSamePoint. */
  const SamePointEpsilon: real := 0.0001

  /** isSamePoint: distance below the tolerance, compared on squares. */
  predicate Same(a: Vector3, b: Vector3)
  {
    DistanceSq(a, b) < SamePointEpsilon * SamePointEpsilon
  }

  predicate Connects(last: Vector3, s: Segment)
  {
    Same(last, s.0) || Same(last, s.1)
  }

  /** The endpoint a connecting segment contributes: its end when its start matches, else its start. */
  function FarEnd(last: Vector3, s: Segment): Vector3
  {
    if Same(last, s.0) then s.1 else s.0
  }

  function Flatten(order: seq<seq<nat>>): (r: seq<nat>)
  {
    if |order| == 0 then [] else Flatten(order[..|order| - 1]) + order[|order| - 1]
  }

  function Elems(s: seq<nat>): set<nat>
  {
    set x | x in s
  }

  predicate Distinct(s: seq<nat>)
  {
    forall i, j :: 0 <= i < j < |s| ==> s[i] != s[j]
  }

  /**
   * `contour` is the chain that starts with both endpoints of segment idx[0]
   * and then, for each later index, appends the far end of a segment that
   * touches the previous last point.
   */
  predicate Chain(segments: seq<Segment>, contour: seq<Vector3>, idx: seq<nat>)
  {
    |idx| >= 1 && |contour| == |idx| + 1 &&
    (forall j :: 0 <= j < |idx| ==> idx[j] < |segments|) &&
    contour[0] == segments[idx[0]].0 && contour[1] == segments[idx[0]].1 &&
    forall j :: 1 <= j < |idx| ==>
      Connects(contour[j], segments[idx[j]]) && contour[j + 1] == FarEnd(contour[j], segments[idx[j]])
  }

  /** The segment indices consumed by the contours before contour c. */
  function UsedBefore(order: seq<seq<nat>>, c: nat): seq<nat>
    requires c <= |order|
  {
    Flatten(order[..c])
  }

  lemma UsedBeforeSnoc(order: seq<seq<nat>>, idx: seq<nat>, c: nat)
    requires c <= |order|
    ensures UsedBefore(order + [idx], c) == UsedBefore(order, c)
  {
    assert (order + [idx])[..c] == order[..c];
  }

  /**
   * The state after some contours are complete: every contour is a chain;
   * no segment index is used twice; each contour starts at the lowest index
   * no earlier contour used; and a contour stops only when no segment still
   * unused touches its last point.
   */
  predicate Partial(segments: seq<Segment>, contours: seq<seq<Vector3>>, order: seq<seq<nat>>)
  {
    |order| == |contours| &&
    (forall c :: 0 <= c < |order| ==> Chain(segments, contours[c], order[c])) &&
    Distinct(Flatten(order)) &&
    (forall c, k :: 0 <= c < |order| && 0 <= k < order[c][0] ==> k in UsedBefore(order, c)) &&
    (forall c, k :: 0 <= c < |order| && 0 <= k < |segments| && k !in UsedBefore(order, c + 1) ==>
       !Connects(contours[c][|contours[c]| - 1], segments[k]))
  }

  /**
   * What connectSegments promises, with `order[c]` the segment indices
   * contour c consumed: the above, and every segment index is used exactly once.
   */
  predicate Connected(segments: seq<Segment>, contours: seq<seq<Vector3>>, order: seq<seq<nat>>)
  {
    Partial(segments, contours, order) &&
    |Flatten(order)| == |segments| &&
    (forall k :: 0 <= k < |segments| ==> k in Flatten(order))
  }

  lemma {:induction false} BoundedCard(s: set<nat>, n: nat)
    requires forall x :: x in s ==> x < n
    ensures |s| <= n
  {
    if n > 0 {
      BoundedCard(s - {n - 1}, n - 1);
    } else {
      assert s == {};
    }
  }

  lemma {:induction false} FullRangeCard(s: set<nat>, n: nat)
    requires forall k :: 0 <= k < n ==> k in s
    ensures |s| >= n
  {
    if n > 0 {
      FullRangeCard(s - {n - 1}, n - 1);
    }
  }

  /** A set of indices below n with n elements holds every index below n. */
  lemma {:induction false} FullRange(s: set<nat>, n: nat)
    requires forall x :: x in s ==> x < n
    requires |s| >= n
    ensures forall k :: 0 <= k < n ==> k in s
  {
    if n > 0 {
      if n - 1 !in s {
        BoundedCard(s, n - 1);
      }
      FullRange(s - {n - 1}, n - 1);
    }
  }

  /** findIndex for the first segment not yet used. */
  method FirstUnused(used: set<nat>, n: nat) returns (index: nat)
    requires exists k :: 0 <= k < n && k !in used
    ensures index < n && index !in used
    ensures forall k :: 0 <= k < index ==> k in used
  {
    index := 0;
    while index in used
      invariant index <= n
      invariant forall k :: 0 <= k < index ==> k in used
      invariant exists k :: index <= k < n && k !in used
      decreases n - index
    {
      index := index + 1;
    }
  }

  /** The for-loop of the do-while: the first unused segment that touches lastPoint, or -1. */
  method FindConnection(segments: seq<Segment>, used: set<nat>, lastPoint: Vector3) returns (i: int)
    ensures -1 <= i < |segments|
    ensures i >= 0 ==> i !in used && Connects(lastPoint, segments[i])
    ensures i >= 0 ==> forall k :: 0 <= k < i && k !in used ==> !Connects(lastPoint, segments[k])
    ensures i == -1 ==> forall k :: 0 <= k < |segments| && k !in used ==> !Connects(lastPoint, segments[k])
  {
    for j := 0 to |segments|
      invariant forall k :: 0 <= k < j && k !in used ==> !Connects(lastPoint, segments[k])
    {
      if j in used {
        continue;
      }
      if Same(lastPoint, segments[j].0) || Same(lastPoint, segments[j].1) {
        return j;
      }
    }
    return -1;
  }

  lemma FlattenSnoc(order: seq<seq<nat>>, idx: seq<nat>)
    ensures Flatten(order + [idx]) == Flatten(order) + idx
  {
    assert (order + [idx])[..|order|] == order;
  }

  lemma ExtendUsed(before: seq<nat>, idx: seq<nat>, i: nat, used: set<nat>)
    requires used == Elems(before + idx) && |used| == |before + idx| && Distinct(before + idx)
    requires i !in used
    ensures used + {i} == Elems(before + (idx + [i]))
    ensures |used + {i}| == |before + (idx + [i])|
    ensures Distinct(before + (idx + [i]))
  {
    assert before + (idx + [i]) == (before + idx) + [i];
  }

  lemma ExtendChain(segments: seq<Segment>, contour: seq<Vector3>, idx: seq<nat>, i: nat)
    requires Chain(segments, contour, idx)
    requires i < |segments| && Connects(contour[|contour| - 1], segments[i])
    ensures Chain(segments, contour + [FarEnd(contour[|contour| - 1], segments[i])], idx + [i])
  {
  }

  /** The state of a contour while it grows: `idx` holds the segments it consumed so far. */
  predicate Growing(segments: seq<Segment>, before: seq<nat>, start: nat,
                    contour: seq<Vector3>, used: set<nat>, idx: seq<nat>)
  {
    Chain(segments, contour, idx) && idx[0] == start &&
    used == Elems(before + idx) && |used| == |before + idx| && Distinct(before + idx) &&
    forall x :: x in used ==> x < |segments|
  }

  lemma GrowStep(segments: seq<Segment>, before: seq<nat>, start: nat,
                 contour: seq<Vector3>, used: set<nat>, idx: seq<nat>, i: nat)
    requires Growing(segments, before, start, contour, used, idx)
    requires i < |segments| && i !in used && Connects(contour[|contour| - 1], segments[i])
    ensures Growing(segments, before, start, contour + [FarEnd(contour[|contour| - 1], segments[i])],
                    used + {i}, idx + [i])
  {
    ExtendChain(segments, contour, idx, i);
    ExtendUsed(before, idx, i, used);
  }

  /** Grows one contour from segment `start` until no unused segment touches its end. */
  method GrowContour(segments: seq<Segment>, used0: set<nat>, ghost before: seq<nat>, start: nat)
    returns (contour: seq<Vector3>, used: set<nat>, ghost idx: seq<nat>)
    requires start < |segments| && start !in used0
    requires used0 == Elems(before) && |used0| == |before| && Distinct(before)
    requires forall x :: x in used0 ==> x < |segments|
    ensures Growing(segments, before, start, contour, used, idx)
    ensures forall k :: 0 <= k < |segments| && k !in used ==> !Connects(contour[|contour| - 1], segments[k])
  {
    contour := [segments[start].0, segments[start].1];
    used := used0 + {start};
    idx := [start];
    assert before + idx == before + [start];
    var foundConnection := true;
    while foundConnection
      invariant Growing(segments, before, start, contour, used, idx)
      invariant !foundConnection ==>
        forall k :: 0 <= k < |segments| && k !in used ==> !Connects(contour[|contour| - 1], segments[k])
      decreases |segments| - |used| + (if foundConnection then 1 else 0)
    {
      BoundedCard(used, |segments|);
      foundConnection := false;
      var lastPoint := contour[|contour| - 1];
      var i := FindConnection(segments, used, lastPoint);
      if i >= 0 {
        var next := if Same(lastPoint, segments[i].0) then segments[i].1 else segments[i].0;
        GrowStep(segments, before, start, contour, used, idx, i);
        contour := contour + [next];
        used := used + {i};
        idx := idx + [i as nat];
        foundConnection := true;
      }
    }
  }

  /** Closing one more contour, grown from the lowest unused index, keeps the state. */
  lemma CloseContour(segments: seq<Segment>, contours: seq<seq<Vector3>>, order: seq<seq<nat>>,
                     contour: seq<Vector3>, idx: seq<nat>)
    requires Partial(segments, contours, order)
    requires Chain(segments, contour, idx)
    requires forall k :: 0 <= k < idx[0] ==> k in Flatten(order)
    requires Distinct(Flatten(order) + idx)
    requires forall k :: 0 <= k < |segments| && k !in Flatten(order) + idx ==>
      !Connects(contour[|contour| - 1], segments[k])
    ensures Partial(segments, contours + [contour], order + [idx])
    ensures Flatten(order + [idx]) == Flatten(order) + idx
  {
    var order' := order + [idx];
    FlattenSnoc(order, idx);
    forall c | 0 <= c <= |order|
      ensures UsedBefore(order', c) == UsedBefore(order, c)
    {
      UsedBeforeSnoc(order, idx, c);
    }
    assert UsedBefore(order', |order|) == Flatten(order);
    assert order'[..|order| + 1] == order';
    assert UsedBefore(order', |order| + 1) == Flatten(order) + idx;
  }

  /** connectSegments; `order` records which segment indices each contour consumed. */
  method ConnectSegments(segments: seq<Segment>) returns (contours: seq<seq<Vector3>>, ghost order: seq<seq<nat>>)
    ensures |segments| == 0 ==> contours == []
    ensures Connected(segments, contours, order)
  {
    contours := [];
    order := [];
    if |segments| == 0 {
      return;
    }
    var used: set<nat> := {};
    while |used| < |segments|
      invariant Partial(segments, contours, order)
      invariant used == Elems(Flatten(order)) && |used| == |Flatten(order)|
      invariant forall x :: x in used ==> x < |segments|
      decreases |segments| - |used|
    {
      if forall k :: 0 <= k < |segments| ==> k in used {
        FullRangeCard(used, |segments|);
      }
      var startIndex := FirstUnused(used, |segments|);
      var currentContour, used', idx := GrowContour(segments, used, Flatten(order), startIndex);
      forall k | 0 <= k < startIndex
        ensures k in Flatten(order)
      {
        assert k in used;
      }
      forall k | 0 <= k < |segments| && k !in Flatten(order) + idx
        ensures !Connects(currentContour[|currentContour| - 1], segments[k])
      {
        assert k !in used';
      }
      CloseContour(segments, contours, order, currentContour, idx);
      contours := contours + [currentContour];
      order := order + [idx];
      used := used';
    }
    BoundedCard(used, |segments|);
    FullRange(used, |segments|);
    forall k | 0 <= k < |segments|
      ensures k in Flatten(order)
    {
      assert k in used;
    }
  }

  function PointCount(contours: seq<seq<Vector3>>): nat
  {
    if |contours| == 0 then 0 else PointCount(contours[..|contours| - 1]) + |contours[|contours| - 1]|
  }

  lemma {:induction false} PointCountChains(segments: seq<Segment>, contours: seq<seq<Vector3>>,
                                            order: seq<seq<nat>>)
    requires |order| == |contours|
    requires forall c :: 0 <= c < |order| ==> Chain(segments, contours[c], order[c])
    ensures PointCount(contours) == |Flatten(order)| + |contours|
  {
    if |contours| > 0 {
      var m := |contours| - 1;
      PointCountChains(segments, contours[..m], order[..m]);
    }
  }

  /** Each contour adds one point more than the segments it consumed: points = segments + contours. */
  lemma PointCountConnected(segments: seq<Segment>, contours: seq<seq<Vector3>>, order: seq<seq<nat>>)
    requires Connected(segments, contours, order)
    ensures PointCount(contours) == |segments| + |contours|
    ensures forall c :: 0 <= c < |contours| ==> |contours[c]| >= 2
  {
    PointCountChains(segments, contours, order);
  }

  // ----- slice: layer heights -----

  /** The fixed layer height of slice. */
  const LayerHeight: real := 0.2

  /** Math.ceil. */
  function Ceil(x: real): (r: int)
    ensures (r - 1) as real < x <= r as real
  {
    -((-x).Floor)
  }

  /** ceil(modelHeight / layerHeight): the fewest layers whose stack reaches the model's top. */
  function LayerCount(modelHeight: real, layerHeight: real): (r: int)
    requires layerHeight > 0.0
    ensures (r - 1) as real * layerHeight < modelHeight <= r as real * layerHeight
  {
    var q := modelHeight / layerHeight;
    var r := Ceil(q);
    assert q * layerHeight == modelHeight;
    assert (r - 1) as real * layerHeight < q * layerHeight;
    assert q * layerHeight <= r as real * layerHeight;
    r
  }

  /** One slice layer: its height and its contours. */
  datatype Layer = Layer(height: real, contours: seq<seq<Vector3>>)

  /** The horizontal cutting plane y = height of createLayer. */
  function HorizontalPlane(height: real): (p: Plane)
    ensures forall v: Vector3 :: DistanceToPoint(p, v) == v.y - height
  {
    Plane(Vector3(0.0, 1.0, 0.0), -height)
  }

  /** The layer's contours chain the segments of the soup cut at the layer's height. */
  ghost predicate Chained(position: seq<real>, cut: (Vector3, Vector3, Plane) -> Vector3, layer: Layer)
    requires |position| % 9 == 0
  {
    exists order :: Connected(Segments(position, |position| / 9, HorizontalPlane(layer.height), cut),
                              layer.contours, order)
  }

  /** createLayer: cut the soup at y = height, then chain the segments. */
  method CreateLayer(position: seq<real>, height: real, cut: (Vector3, Vector3, Plane) -> Vector3)
    returns (layer: Layer)
    requires |position| % 9 == 0
    ensures layer.height == height
    ensures Chained(position, cut, layer)
  {
    var intersectionPlane := HorizontalPlane(height);
    var intersectionLines := FindIntersections(position, intersectionPlane, cut);
    var contours, order := ConnectSegments(intersectionLines);
    layer := Layer(height, contours);
  }

  /** slice as written: the layer count is computed, but the loop builds layer 0 only. */
  method SliceAsWritten(position: seq<real>, minY: real, maxY: real, cut: (Vector3, Vector3, Plane) -> Vector3)
    returns (layers: seq<Layer>)
    requires |position| % 9 == 0
    ensures |layers| == 1 && layers[0].height == minY
  {
    var modelHeight := maxY - minY;
    var layerCount := LayerCount(modelHeight, LayerHeight);
    layers := [];
    for i := 0 to 1
      invariant |layers| == i
      invariant forall j :: 0 <= j < i ==> layers[j].height == minY + j as real * LayerHeight
    {
      var height := minY + i as real * LayerHeight;
      var layer := CreateLayer(position, height, cut);
      layers := layers + [layer];
    }
  }

  /** A 1 mm tall model needs five 0.2 mm layers, yet slice returns one. */
  lemma SliceAsWrittenDropsLayers()
    ensures LayerCount(1.0, LayerHeight) == 5
  {
    assert 1.0 / LayerHeight == 5.0;
  }

  /** slice with the evidently intended loop bound: layers 0 .. layerCount - 1. */
  method Slice(position: seq<real>, minY: real, maxY: real, cut: (Vector3, Vector3, Plane) -> Vector3)
    returns (layers: seq<Layer>)
    requires |position| % 9 == 0
    ensures |layers| == if LayerCount(maxY - minY, LayerHeight) < 0 then 0 else LayerCount(maxY - minY, LayerHeight)
    ensures forall i :: 0 <= i < |layers| ==> layers[i].height == minY + i as real * LayerHeight
    ensures forall i :: 0 <= i < |layers| ==> Chained(position, cut, layers[i])
  {
    var modelHeight := maxY - minY;
    var layerCount := LayerCount(modelHeight, LayerHeight);
    layers := [];
    var i := 0;
    while i < layerCount
      invariant 0 <= i && (i <= layerCount || i == 0)
      invariant |layers| == i
      invariant forall j :: 0 <= j < i ==> layers[j].height == minY + j as real * LayerHeight
      invariant forall j :: 0 <= j < i ==> Chained(position, cut, layers[j])
    {
      var height := minY + i as real * LayerHeight;
      var layer := CreateLayer(position, height, cut);
      layers := layers + [layer];
      i := i + 1;
    }
  }

  /** For a model of positive height every layer of Slice lies within the model, and together they reach its top. */
  lemma LayersWithinModel(minY: real, maxY: real, i: int)
    requires minY < maxY
    requires 0 <= i < LayerCount(maxY - minY, LayerHeight)
    ensures minY <= minY + i as real * LayerHeight < maxY
    ensures maxY <= minY + LayerCount(maxY - minY, LayerHeight) as real * LayerHeight
  {
    var n := LayerCount(maxY - minY, LayerHeight);
    assert i as real * LayerHeight <= (n - 1) as real * LayerHeight;
  }
}
